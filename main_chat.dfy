/**
 * The main process's `api:chat` handler (electron/main.ts): configuration
 * precedence over the `~/.claude/settings.json` environment, the one-shot
 * response path, and the buffered streaming decoder that forwards
 * `api:chatChunk` messages to the renderer.
 */
module MainChat {
  import opened Wrappers
  import opened JsString
  import opened Wire
  import opened LineSplit

  // ---------------------------------------------------------------------------
  // Configuration
  // ---------------------------------------------------------------------------

  /** The renderer's `overrideSettings`; a missing or empty string counts as absent. */
  datatype Overrides = Overrides(apiKey: Option<string>, baseUrl: Option<string>, model: Option<string>, stream: Option<bool>)

  datatype ChatConfig = ChatConfig(apiKey: string, baseUrl: string, model: string, useStream: bool)

  datatype ConfigResult = Configured(config: ChatConfig) | ConfigUnreadable

  const DefaultBaseUrl := "https://api.anthropic.com"
  const DefaultModel := "MiniMax-M2.5"
  const ConfigUnreadableMessage := "无法读取 ~/.claude/settings.json 配置文件"

  /** `env[key] || fallback` */
  function EnvOr(env: map<string, string>, key: string, fallback: string): (r: string)
    ensures r == fallback || (key in env && r == env[key] && r != "")
  {
    if key in env && env[key] != "" then env[key] else fallback
  }

  /**
   * The settings file is consulted only when the API key or the base URL is
   * missing; `configEnv` is its `env` object, `None` when reading or parsing
   * it failed.
   */
  function ResolveConfig(o: Overrides, configEnv: Option<map<string, string>>): (r: ConfigResult)
    ensures r.ConfigUnreadable? <==> (!Truthy(o.apiKey) || !Truthy(o.baseUrl)) && configEnv.None?
    ensures r.Configured? ==> r.config.model != "" && r.config.baseUrl != ""
    ensures r.Configured? ==> r.config.useStream == (o.stream != Some(false))
    ensures r.Configured? && Truthy(o.apiKey) ==> r.config.apiKey == o.apiKey.value
    ensures r.Configured? && Truthy(o.baseUrl) ==> r.config.baseUrl == o.baseUrl.value
    ensures r.Configured? && Truthy(o.model) ==> r.config.model == o.model.value
    ensures Truthy(o.apiKey) && Truthy(o.baseUrl) && !Truthy(o.model) ==> r.Configured? && r.config.model == DefaultModel
  {
    var apiKey := StringOr(o.apiKey, "");
    var baseUrl := StringOr(o.baseUrl, "");
    var model := StringOr(o.model, "");
    var useStream := o.stream != Some(false);
    if apiKey == "" || baseUrl == "" then
      match configEnv
      case None => ConfigUnreadable
      case Some(env) =>
        var k := if apiKey == "" then EnvOr(env, "ANTHROPIC_AUTH_TOKEN", EnvOr(env, "ANTHROPIC_API_KEY", "")) else apiKey;
        var u := if baseUrl == "" then EnvOr(env, "ANTHROPIC_BASE_URL", DefaultBaseUrl) else baseUrl;
        var m := if model == "" then EnvOr(env, "ANTHROPIC_MODEL", EnvOr(env, "ANTHROPIC_DEFAULT_SONNET_MODEL", DefaultModel)) else model;
        Configured(ChatConfig(k, u, if m == "" then DefaultModel else m, useStream))
    else
      Configured(ChatConfig(apiKey, baseUrl, if model == "" then DefaultModel else model, useStream))
  }

  /** With both the key and the base URL given, the settings file plays no part. */
  lemma OverridesNeedNoConfigFile(o: Overrides, e1: Option<map<string, string>>, e2: Option<map<string, string>>)
    requires Truthy(o.apiKey) && Truthy(o.baseUrl)
    ensures ResolveConfig(o, e1) == ResolveConfig(o, e2)
    ensures ResolveConfig(o, e1).Configured?
  {
  }

  /**
   * Whenever the settings file is read, each value that was not given falls
   * back along its own chain of `env` keys: the key from ANTHROPIC_AUTH_TOKEN
   * to ANTHROPIC_API_KEY to '', the base URL from ANTHROPIC_BASE_URL to the
   * Anthropic host, and the model from ANTHROPIC_MODEL to
   * ANTHROPIC_DEFAULT_SONNET_MODEL to MiniMax-M2.5.
   */
  lemma ConfigFileFallbacks(o: Overrides, env: map<string, string>)
    requires !Truthy(o.apiKey) || !Truthy(o.baseUrl)
    ensures var c := ResolveConfig(o, Some(env)).config;
      && (!Truthy(o.apiKey) ==>
            c.apiKey == if "ANTHROPIC_AUTH_TOKEN" in env && env["ANTHROPIC_AUTH_TOKEN"] != "" then env["ANTHROPIC_AUTH_TOKEN"]
                        else if "ANTHROPIC_API_KEY" in env then env["ANTHROPIC_API_KEY"] else "")
      && (!Truthy(o.baseUrl) ==>
            c.baseUrl == if "ANTHROPIC_BASE_URL" in env && env["ANTHROPIC_BASE_URL"] != "" then env["ANTHROPIC_BASE_URL"]
                         else DefaultBaseUrl)
      && (!Truthy(o.model) ==>
            c.model == if "ANTHROPIC_MODEL" in env && env["ANTHROPIC_MODEL"] != "" then env["ANTHROPIC_MODEL"]
                       else if "ANTHROPIC_DEFAULT_SONNET_MODEL" in env && env["ANTHROPIC_DEFAULT_SONNET_MODEL"] != "" then env["ANTHROPIC_DEFAULT_SONNET_MODEL"]
                       else DefaultModel)
  {
  }

  /** The request `api:chat` sends. */
  datatype Request = Request(endpoint: string, headers: map<string, string>, model: string, maxTokens: int, stream: bool, messages: seq<(string, string)>)

  function ChatRequest(c: ChatConfig, messages: seq<(string, string)>): (r: Request)
    ensures r.endpoint == c.baseUrl + "/v1/messages"
    ensures r.headers.Keys == {"Content-Type", "x-api-key", "anthropic-version"} && r.headers["x-api-key"] == c.apiKey
    ensures r.maxTokens == 4096 && r.stream == c.useStream && r.model == c.model && r.messages == messages
  {
    Request(c.baseUrl + "/v1/messages",
            map["Content-Type" := "application/json", "x-api-key" := c.apiKey, "anthropic-version" := "2023-06-01"],
            c.model, 4096, c.useStream, messages)
  }

  // ---------------------------------------------------------------------------
  // Results
  // ---------------------------------------------------------------------------

  datatype ChatResult =
    | ChatSuccess(content: string, model: Option<string>, usage: Option<Usage>, streamed: bool)
    | ChatFailure(error: string)
    /** `new URL(endpoint)` threw before the `try`: the handler's promise rejects with that TypeError. */
    | UrlRejected(endpoint: string)

  /**
   * The non-streaming path (also taken for every non-2xx status): `data` is the
   * raw body and `parsed` its `JSON.parse`.
   */
  function CompleteResponse(ok: bool, status: nat, data: string, parsed: Option<ResponseJson>): (r: ChatResult)
    ensures r.ChatSuccess? <==> ok && parsed.Some?
    ensures r.ChatSuccess? ==> !r.streamed && r.model == parsed.value.model && r.usage == parsed.value.usage
    ensures r.ChatSuccess? ==>
      var blocks := parsed.value.content.GetOr([]);
      var i := FirstTextBlock(blocks);
      r.content == if i.Some? then StringOr(blocks[i.value].text, "") else ""
    ensures r.ChatFailure? && parsed.Some? && Truthy(parsed.value.errorMessage) ==> r.error == parsed.value.errorMessage.value
    ensures r.ChatFailure? && !(parsed.Some? && Truthy(parsed.value.errorMessage)) ==> Contains(r.error, data)
  {
    match parsed
    case None =>
      var e := "无法解析 API 响应: " + NatToString(status) + " - " + data;
      SuffixContained(e, data);
      ChatFailure(e)
    case Some(json) =>
      if ok then
        var blocks := json.content.GetOr([]);
        var text := match FirstTextBlock(blocks) case Some(i) => StringOr(blocks[i].text, "") case None => "";
        ChatSuccess(text, json.model, json.usage, false)
      else
        var e := "API 请求失败: " + NatToString(status) + " - " + data;
        SuffixContained(e, data);
        ChatFailure(StringOr(json.errorMessage, e))
  }

  lemma SuffixContained(e: string, t: string)
    requires |t| <= |e| && e[|e| - |t|..] == t
    ensures Contains(e, t)
  {
    OccurrenceIsContained(e, t, |e| - |t|);
  }

  // ---------------------------------------------------------------------------
  // The streaming decoder
  // ---------------------------------------------------------------------------

  /** An `api:chatChunk` message: `{text, full}` or `{done: true, usage}`. */
  datatype ProxyChunk = TextChunk(text: string, full: string) | DoneChunk(usage: Option<Usage>)

  /** What the reader loop has accumulated: `fullText`, `usage` and the chunks sent. */
  datatype StreamState = StreamState(fullText: string, usage: Option<Usage>, sent: seq<ProxyChunk>)

  const Start := StreamState("", None, [])

  /** `{...usage, input_tokens: v}`, a missing `v` leaving the key absent. */
  function WithInputTokens(usage: Option<Usage>, messageUsage: Usage): (r: Usage)
    ensures forall k :: k in usage.GetOr(map[]) && k != "input_tokens" ==> k in r && r[k] == usage.value[k]
    ensures "input_tokens" in r <==> "input_tokens" in messageUsage
    ensures "input_tokens" in r ==> r["input_tokens"] == messageUsage["input_tokens"]
  {
    var base := usage.GetOr(map[]);
    if "input_tokens" in messageUsage then base["input_tokens" := messageUsage["input_tokens"]]
    else base - {"input_tokens"}
  }

  /** The payload of a `data: ` line, trimmed. */
  function DataOf(line: string): Option<string> {
    if StartsWith(line, "data: ") then Some(Trim(line[6..])) else None
  }

  /** One complete line through the loop body. */
  function LineStep(st: StreamState, line: string, parse: string -> Option<Event>): StreamState {
    match DataOf(line)
    case None => st
    case Some(data) =>
      if data == "[DONE]" then st
      else match parse(data)
        case None => st
        case Some(e) =>
          var st1 := if e.IsType("content_block_delta") && Truthy(e.DeltaText()) then
              var full := st.fullText + e.DeltaText().value;
              StreamState(full, st.usage, st.sent + [TextChunk(e.DeltaText().value, full)])
            else st;
          var st2 := if e.IsType("message_delta") && e.usage.Some? then st1.(usage := e.usage) else st1;
          if e.IsType("message_start") && e.messageUsage.Some? then st2.(usage := Some(WithInputTokens(st2.usage, e.messageUsage.value)))
          else st2
  }

  /** The lines, in order, through the loop body. */
  function Decode(st: StreamState, lines: seq<string>, parse: string -> Option<Event>): StreamState
    decreases |lines|
  {
    if |lines| == 0 then st else LineStep(Decode(st, lines[..|lines| - 1], parse), lines[|lines| - 1], parse)
  }

  lemma {:induction false} DecodeAppend(st: StreamState, a: seq<string>, b: seq<string>, parse: string -> Option<Event>)
    ensures Decode(st, a + b, parse) == Decode(Decode(st, a, parse), b, parse)
    decreases |b|
  {
    if |b| == 0 {
      assert a + b == a;
    } else {
      assert (a + b)[..|a + b| - 1] == a + b[..|b| - 1];
      DecodeAppend(st, a, b[..|b| - 1], parse);
    }
  }

  /**
   * The renderer-side reading of `api:chatChunk`: `TextsOf(sent)` is the text
   * carried so far by the `{text}` chunks.
   */
  function TextsOf(sent: seq<ProxyChunk>): string
    decreases |sent|
  {
    if |sent| == 0 then ""
    else TextsOf(sent[..|sent| - 1]) + (match sent[|sent| - 1] case TextChunk(t, _) => t case DoneChunk(_) => "")
  }

  /**
   * The state the loop keeps: `fullText` is the concatenation of every text sent,
   * each `{text, full}` chunk has a non-empty `text` and a `full` equal to the
   * text so far, and no `done` chunk has been sent.
   */
  ghost predicate WellFormed(st: StreamState) {
    && st.fullText == TextsOf(st.sent)
    && forall k :: 0 <= k < |st.sent| ==>
         st.sent[k].TextChunk? && st.sent[k].text != "" && st.sent[k].full == TextsOf(st.sent[..k + 1])
  }

  lemma {:induction false} DecodeWellFormed(lines: seq<string>, parse: string -> Option<Event>)
    ensures WellFormed(Decode(Start, lines, parse))
    decreases |lines|
  {
    if |lines| > 0 {
      var prev := Decode(Start, lines[..|lines| - 1], parse);
      DecodeWellFormed(lines[..|lines| - 1], parse);
      LineStepWellFormed(prev, lines[|lines| - 1], parse);
    }
  }

  /** A line either changes no text or sends exactly one non-empty text chunk whose `full` is the new text. */
  lemma LineStepShape(st: StreamState, line: string, parse: string -> Option<Event>)
    ensures var r := LineStep(st, line, parse);
      || (r.sent == st.sent && r.fullText == st.fullText)
      || (st.fullText + DeltaOf(line, parse) == r.fullText && DeltaOf(line, parse) != ""
          && r.sent == st.sent + [TextChunk(DeltaOf(line, parse), r.fullText)])
  {
  }

  /** The delta text a line contributes, if any. */
  function DeltaOf(line: string, parse: string -> Option<Event>): string {
    match DataOf(line)
    case None => ""
    case Some(data) =>
      if data == "[DONE]" then ""
      else match parse(data)
        case None => ""
        case Some(e) => if e.IsType("content_block_delta") && Truthy(e.DeltaText()) then e.DeltaText().value else ""
  }

  lemma WellFormedAppend(st: StreamState, t: string, u: Option<Usage>)
    requires WellFormed(st) && t != ""
    ensures WellFormed(StreamState(st.fullText + t, u, st.sent + [TextChunk(t, st.fullText + t)]))
  {
    var sent := st.sent + [TextChunk(t, st.fullText + t)];
    assert sent[..|st.sent|] == st.sent;
    assert TextsOf(sent) == TextsOf(st.sent) + t;
    forall k | 0 <= k < |sent|
      ensures sent[k].TextChunk? && sent[k].text != "" && sent[k].full == TextsOf(sent[..k + 1])
    {
      if k < |st.sent| {
        assert sent[..k + 1] == st.sent[..k + 1];
      } else {
        assert sent[..k + 1] == sent;
      }
    }
  }

  lemma LineStepWellFormed(st: StreamState, line: string, parse: string -> Option<Event>)
    requires WellFormed(st)
    ensures WellFormed(LineStep(st, line, parse))
  {
    var r := LineStep(st, line, parse);
    LineStepShape(st, line, parse);
    if r.sent == st.sent && r.fullText == st.fullText {
    } else {
      WellFormedAppend(st, DeltaOf(line, parse), r.usage);
    }
  }

  /** One line of the reader loop's body. */
  method HandleLine(fullText0: string, usage0: Option<Usage>, sent0: seq<ProxyChunk>, line: string, parse: string -> Option<Event>)
    returns (fullText: string, usage: Option<Usage>, sent: seq<ProxyChunk>)
    ensures StreamState(fullText, usage, sent) == LineStep(StreamState(fullText0, usage0, sent0), line, parse)
  {
    fullText, usage, sent := fullText0, usage0, sent0;
    if !StartsWith(line, "data: ") {
      return;
    }
    var data := Trim(line[6..]);
    assert DataOf(line) == Some(data);
    if data == "[DONE]" {
      return;
    }
    var event := parse(data);
    if event.None? {
      return;
    }
    var e := event.value;
    ghost var st := StreamState(fullText0, usage0, sent0);
    ghost var st1 := if e.IsType("content_block_delta") && Truthy(e.DeltaText()) then
        StreamState(st.fullText + e.DeltaText().value, st.usage, st.sent + [TextChunk(e.DeltaText().value, st.fullText + e.DeltaText().value)])
      else st;
    assert LineStep(st, line, parse) == (
      var st2 := if e.IsType("message_delta") && e.usage.Some? then st1.(usage := e.usage) else st1;
      if e.IsType("message_start") && e.messageUsage.Some? then st2.(usage := Some(WithInputTokens(st2.usage, e.messageUsage.value)))
      else st2);
    if e.eventType == Some("content_block_delta") && e.delta.Some? && e.delta.value.text.Some? && e.delta.value.text.value != "" {
      fullText := fullText + e.delta.value.text.value;
      sent := sent + [TextChunk(e.delta.value.text.value, fullText)];
    }
    if e.eventType == Some("message_delta") && e.usage.Some? {
      usage := e.usage;
    }
    if e.eventType == Some("message_start") && e.messageUsage.Some? {
      usage := Some(WithInputTokens(usage, e.messageUsage.value));
    }
  }

  /**
   * The reads of `api:chat`'s reader loop over the chunks the response body
   * delivers: every complete line is decoded and the unterminated tail is
   * carried into the next read. The results depend only on the concatenated
   * body, not on where it was split.
   */
  method DecodeReads(chunks: seq<string>, parse: string -> Option<Event>)
    returns (sent: seq<ProxyChunk>, fullText: string, usage: Option<Usage>)
    ensures StreamState(fullText, usage, sent) == Decode(Start, CompleteLines(Concat(chunks)), parse)
  {
    var buffer := "";
    fullText, usage, sent := "", None, [];
    var i := 0;
    while i < |chunks|
      invariant 0 <= i <= |chunks|
      invariant buffer == Carry(Concat(chunks[..i]))
      invariant StreamState(fullText, usage, sent) == Decode(Start, CompleteLines(Concat(chunks[..i])), parse)
    {
      ghost var before := Concat(chunks[..i]);
      assert chunks[..i + 1][..i] == chunks[..i];
      buffer := buffer + chunks[i];
      var lines := Lines(buffer);
      buffer := lines[|lines| - 1];
      var j := 0;
      ghost var st0 := StreamState(fullText, usage, sent);
      while j < |lines| - 1
        invariant 0 <= j <= |lines| - 1
        invariant StreamState(fullText, usage, sent) == Decode(st0, lines[..j], parse)
      {
        assert lines[..j + 1][..j] == lines[..j];
        fullText, usage, sent := HandleLine(fullText, usage, sent, lines[j], parse);
        j := j + 1;
      }
      assert lines[..|lines| - 1] == CompleteLines(Carry(before) + chunks[i]);
      CarryStep(before, chunks[i]);
      DecodeAppend(Start, CompleteLines(before), CompleteLines(Carry(before) + chunks[i]), parse);
      i := i + 1;
    }
    assert chunks[..i] == chunks;
  }

  /** The whole reader loop: the reads of `DecodeReads`, then one `{done, usage}` chunk. */
  method ReadStream(chunks: seq<string>, parse: string -> Option<Event>)
    returns (sent: seq<ProxyChunk>, fullText: string, usage: Option<Usage>)
    ensures var st := Decode(Start, CompleteLines(Concat(chunks)), parse);
      && sent == st.sent + [DoneChunk(st.usage)]
      && fullText == st.fullText
      && usage == st.usage
  {
    sent, fullText, usage := DecodeReads(chunks, parse);
    sent := sent + [DoneChunk(usage)];
  }

  /** The chunks `api:chat` sends end with exactly one `done`, and every earlier chunk is text. */
  lemma ExactlyOneDone(chunks: seq<string>, parse: string -> Option<Event>)
    ensures var st := Decode(Start, CompleteLines(Concat(chunks)), parse);
      var sent := st.sent + [DoneChunk(st.usage)];
      && sent[|sent| - 1].DoneChunk?
      && forall k :: 0 <= k < |sent| - 1 ==> sent[k].TextChunk?
  {
    DecodeWellFormed(CompleteLines(Concat(chunks)), parse);
  }

  /** Each `{text, full}` chunk carries in `full` every text sent up to and including it. */
  lemma FullIsTextSoFar(lines: seq<string>, parse: string -> Option<Event>, k: nat)
    requires k < |Decode(Start, lines, parse).sent|
    ensures var sent := Decode(Start, lines, parse).sent;
      sent[k].TextChunk? && sent[k].full == TextsOf(sent[..k + 1])
    ensures Decode(Start, lines, parse).fullText == TextsOf(Decode(Start, lines, parse).sent)
  {
    DecodeWellFormed(lines, parse);
  }

  /** Lines that are not `data: `, whose payload is `[DONE]`, or that do not parse change nothing. */
  lemma SkippedLines(st: StreamState, line: string, parse: string -> Option<Event>)
    requires !StartsWith(line, "data: ") || Trim(line[6..]) == "[DONE]" || parse(Trim(line[6..])).None?
    ensures LineStep(st, line, parse) == st
  {
  }

  /** A `message_delta` with usage replaces the usage seen so far; nothing is summed. */
  lemma MessageDeltaReplacesUsage(st: StreamState, line: string, parse: string -> Option<Event>, e: Event)
    requires DataOf(line).Some? && DataOf(line).value != "[DONE]" && parse(DataOf(line).value) == Some(e)
    requires e.IsType("message_delta") && e.usage.Some?
    ensures LineStep(st, line, parse).usage == e.usage
    ensures LineStep(st, line, parse).sent == st.sent
  {
  }

  /** A final line with no '\n' after it is never decoded. */
  lemma FinalUnterminatedLineIgnored(body: string, tail: string, parse: string -> Option<Event>)
    requires body == "" || body[|body| - 1] == '\n'
    requires '\n' !in tail
    ensures Decode(Start, CompleteLines(body + tail), parse) == Decode(Start, CompleteLines(body), parse)
  {
    UnterminatedTailIgnored(body, tail);
  }

  // ---------------------------------------------------------------------------
  // The handler
  // ---------------------------------------------------------------------------

  /**
   * What `fetch` produced: a network error, or a status, the body's chunks
   * (`None`: no readable body) and the rejection, if any, of the read that
   * follows the last chunk.
   */
  datatype FetchOutcome =
    | NetworkError(message: string)
    | Response(ok: bool, status: nat, body: Option<seq<string>>, readError: Option<string>)

  /**
   * The configuration resolved and its endpoint passed `new URL`, so the
   * handler reaches its `try`. `isUrl` stands for the URL parser.
   */
  predicate Proceeds(o: Overrides, configEnv: Option<map<string, string>>, isUrl: string -> bool) {
    ResolveConfig(o, configEnv).Configured? && isUrl(ResolveConfig(o, configEnv).config.baseUrl + "/v1/messages")
  }

  /** The fetch succeeded with a 2xx status and the reply is streamed. */
  predicate Streams(o: Overrides, configEnv: Option<map<string, string>>, isUrl: string -> bool, response: FetchOutcome) {
    && Proceeds(o, configEnv, isUrl) && ResolveConfig(o, configEnv).config.useStream
    && response.Response? && response.ok
  }

  /**
   * `api:chat`: resolve the configuration, build the endpoint with `new URL`
   * (outside the `try`, so a rejection escapes the handler), send the
   * request, then either decode the whole body or stream it. `sent` is what goes out on
   * `api:chatChunk`; a failure caught after some chunks went out leaves them sent.
   */
  method ApiChat(o: Overrides, configEnv: Option<map<string, string>>, isUrl: string -> bool, response: FetchOutcome,
                 parse: string -> Option<Event>, parseResponse: string -> Option<ResponseJson>)
    returns (sent: seq<ProxyChunk>, r: ChatResult)
    ensures ResolveConfig(o, configEnv).ConfigUnreadable? ==> r == ChatFailure(ConfigUnreadableMessage) && sent == []
    ensures ResolveConfig(o, configEnv).Configured? && !Proceeds(o, configEnv, isUrl) ==>
      r == UrlRejected(ResolveConfig(o, configEnv).config.baseUrl + "/v1/messages") && sent == []
    ensures r.UrlRejected? <==> ResolveConfig(o, configEnv).Configured? && !Proceeds(o, configEnv, isUrl)
    ensures response.NetworkError? && Proceeds(o, configEnv, isUrl) ==> r == ChatFailure("网络错误: " + response.message) && sent == []
    ensures !Streams(o, configEnv, isUrl, response) ==> sent == []
    ensures response.Response? && Proceeds(o, configEnv, isUrl) && (!response.ok || !ResolveConfig(o, configEnv).config.useStream) ==>
      var data := Concat(response.body.GetOr([]));
      r == if response.readError.Some? then ChatFailure("网络错误: " + response.readError.value)
           else CompleteResponse(response.ok, response.status, data, parseResponse(data))
    ensures Streams(o, configEnv, isUrl, response) && response.body.None? ==> r == ChatFailure("网络错误: 流式读取失败") && sent == []
    ensures Streams(o, configEnv, isUrl, response) && response.body.Some? ==>
      var st := Decode(Start, CompleteLines(Concat(response.body.value)), parse);
      if response.readError.Some? then
        sent == st.sent && r == ChatFailure("网络错误: " + response.readError.value)
      else
        sent == st.sent + [DoneChunk(st.usage)]
        && r == ChatSuccess(st.fullText, Some(ResolveConfig(o, configEnv).config.model), st.usage, true)
    ensures r.ChatSuccess? && r.streamed ==> Streams(o, configEnv, isUrl, response) && response.body.Some? && response.readError.None?
  {
    sent := [];
    var resolved := ResolveConfig(o, configEnv);
    if resolved.ConfigUnreadable? {
      return sent, ChatFailure(ConfigUnreadableMessage);
    }
    var config := resolved.config;
    var endpoint := config.baseUrl + "/v1/messages";
    if !isUrl(endpoint) {
      return sent, UrlRejected(endpoint);
    }
    match response
    case NetworkError(m) =>
      r := ChatFailure("网络错误: " + m);
    case Response(ok, status, body, readError) =>
      if !config.useStream || !ok {
        if readError.Some? {
          r := ChatFailure("网络错误: " + readError.value);
        } else {
          var data := Concat(body.GetOr([]));
          r := CompleteResponse(ok, status, data, parseResponse(data));
        }
      } else if body.None? {
        r := ChatFailure("网络错误: 流式读取失败");
      } else if readError.Some? {
        var fullText, usage;
        sent, fullText, usage := DecodeReads(body.value, parse);
        r := ChatFailure("网络错误: " + readError.value);
      } else {
        var fullText, usage;
        sent, fullText, usage := ReadStream(body.value, parse);
        r := ChatSuccess(fullText, Some(config.model), usage, true);
      }
  }
}
