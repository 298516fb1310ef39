/**
 * The renderer's provider client (src/lib/claude-api.ts): provider detection,
 * request headers, body and endpoint, the error extraction and response
 * normalisation of `chat`, and the line loops of `chatStream`.
 */
module ClaudeApi {
  import opened Wrappers
  import opened JsString
  import opened Wire
  import opened LineSplit

  datatype Provider = Anthropic | ThirdParty | ClaudeCode

  // ---------------------------------------------------------------------------
  // Provider, headers, body, endpoint
  // ---------------------------------------------------------------------------

  /** A 'minimax' base URL is third-party; otherwise a 'claude-' model is Anthropic. */
  function GetProviderType(model: string, baseUrl: string): (p: Provider)
    ensures p != ClaudeCode
    ensures p == Anthropic <==> !Contains(baseUrl, "minimax") && StartsWith(model, "claude-")
  {
    if Contains(baseUrl, "minimax") then ThirdParty
    else if StartsWith(model, "claude-") then Anthropic
    else ThirdParty
  }

  predicate IsAnthropicCompatible(p: Provider, baseUrl: string) {
    p == Anthropic || Contains(baseUrl, "/anthropic") || Contains(baseUrl, "api.anthropic.com")
  }

  type Headers = map<string, string>

  function BuildHeaders(apiKey: string, p: Provider, baseUrl: string, compatible: bool): (h: Headers)
    ensures "Content-Type" in h && h["Content-Type"] == "application/json"
    ensures ("x-api-key" in h) != ("Authorization" in h)
    ensures "x-api-key" in h ==> h["x-api-key"] == apiKey && "anthropic-version" in h && h["anthropic-version"] == "2023-06-01"
    ensures "Authorization" in h ==> h["Authorization"] == "Bearer " + apiKey
    ensures p == Anthropic || compatible ==> "x-api-key" in h
    ensures "x-api-key" in h <==> p == Anthropic || compatible || (p == ThirdParty && Contains(baseUrl, "minimax") && Contains(baseUrl, "/anthropic"))
  {
    var base := map["Content-Type" := "application/json"];
    if p == Anthropic || compatible then
      base["x-api-key" := apiKey]["anthropic-version" := "2023-06-01"]
    else if p == ThirdParty && Contains(baseUrl, "minimax") && Contains(baseUrl, "/anthropic") then
      base["x-api-key" := apiKey]["anthropic-version" := "2023-06-01"]
    else if p == ThirdParty && Contains(baseUrl, "minimax") then
      base["Authorization" := "Bearer " + apiKey]
    else
      base["Authorization" := "Bearer " + apiKey]
  }

  /** As `chat` calls it, the key header is used exactly for Anthropic-compatible requests, Bearer for all others. */
  lemma HeadersFollowCompatibility(apiKey: string, p: Provider, baseUrl: string)
    ensures var h := BuildHeaders(apiKey, p, baseUrl, IsAnthropicCompatible(p, baseUrl));
      ("x-api-key" in h <==> IsAnthropicCompatible(p, baseUrl))
      && ("Authorization" in h <==> !IsAnthropicCompatible(p, baseUrl))
  {
  }

  datatype SimpleMessage = SimpleMessage(role: string, content: string)

  datatype RequestBody = RequestBody(model: string, messages: seq<SimpleMessage>, maxTokens: int, temperature: real, stream: bool)

  /** `msg.role === 'assistant' ? 'assistant' : msg.role` */
  function BodyRole(role: string): (r: string)
    ensures r == role
  {
    if role == "assistant" then "assistant" else role
  }

  function BodyMessages(ms: seq<SimpleMessage>): (r: seq<SimpleMessage>)
    ensures r == ms
  {
    seq(|ms|, i requires 0 <= i < |ms| => SimpleMessage(BodyRole(ms[i].role), ms[i].content))
  }

  /**
   * The request body: never streaming, `max_tokens` defaulting (also for 0) to
   * 4096, and `temperature ?? 1`, or `?? 0.7` for third-party MiniMax models.
   */
  function BuildRequestBody(model: string, messages: seq<SimpleMessage>, maxTokens: Option<int>, temperature: Option<real>, p: Provider): (b: RequestBody)
    ensures !b.stream && b.model == model && b.messages == messages
    ensures b.maxTokens == if maxTokens.Some? && maxTokens.value != 0 then maxTokens.value else 4096
    ensures temperature.Some? ==> b.temperature == temperature.value
    ensures temperature.None? ==> b.temperature == if p == ThirdParty && Contains(model, "MiniMax") then 0.7 else 1.0
  {
    var maxT := if maxTokens.Some? && maxTokens.value != 0 then maxTokens.value else 4096;
    if p == ThirdParty && Contains(model, "MiniMax") then
      RequestBody(model, BodyMessages(messages), maxT, temperature.GetOr(0.7), false)
    else
      RequestBody(model, BodyMessages(messages), maxT, temperature.GetOr(1.0), false)
  }

  /** `getEndpoint` as written: only the Anthropic provider and MiniMax '/anthropic' URLs get `/v1/messages`. */
  function GetEndpoint(baseUrl: string, p: Provider, model: string): (e: string)
    ensures e == baseUrl + "/v1/messages" || e == baseUrl + "/v1/chat/completions"
    ensures e == baseUrl + "/v1/messages" <==> p == Anthropic || (Contains(baseUrl, "minimax") && Contains(baseUrl, "/anthropic"))
  {
    if p == Anthropic then baseUrl + "/v1/messages"
    else if Contains(baseUrl, "minimax") && Contains(baseUrl, "/anthropic") then baseUrl + "/v1/messages"
    else if Contains(baseUrl, "minimax") then baseUrl + "/v1/chat/completions"
    else baseUrl + "/v1/chat/completions"
  }

  const MoonshotBaseUrl := "https://api.moonshot.cn/anthropic"

  /**
   * On the Moonshot preset's Anthropic-compatible base URL, `chat` sends the
   * Anthropic key header and reads an Anthropic-shaped reply, but posts to the
   * OpenAI path.
   */
  lemma EndpointDisagreesWithCompatibility()
    ensures IsAnthropicCompatible(ThirdParty, MoonshotBaseUrl)
    ensures "x-api-key" in BuildHeaders("k", ThirdParty, MoonshotBaseUrl, true)
    ensures GetEndpoint(MoonshotBaseUrl, ThirdParty, "moonshot-v1-8k") == MoonshotBaseUrl + "/v1/chat/completions"
  {
    MoonshotIsAnthropicPath();
    MoonshotIsNotMiniMax();
  }

  lemma MoonshotIsAnthropicPath()
    ensures Contains(MoonshotBaseUrl, "/anthropic")
  {
    assert MoonshotBaseUrl[23..33] == "/anthropic";
    OccurrenceIsContained(MoonshotBaseUrl, "/anthropic", 23);
  }

  lemma MoonshotIsNotMiniMax()
    ensures !Contains(MoonshotBaseUrl, "minimax")
  {
    ContainedCharsOccur(MoonshotBaseUrl, "minimax", 6);
    assert 'x' !in MoonshotBaseUrl;
  }

  /** The endpoint that agrees with the headers and with the reply parsing: `/v1/messages` exactly for compatible requests. */
  function CompatibleEndpoint(baseUrl: string, p: Provider): (e: string)
    ensures e == baseUrl + (if IsAnthropicCompatible(p, baseUrl) then "/v1/messages" else "/v1/chat/completions")
  {
    if IsAnthropicCompatible(p, baseUrl) then baseUrl + "/v1/messages" else baseUrl + "/v1/chat/completions"
  }

  /** With the corrected endpoint, a request carries the Anthropic key header exactly when it goes to `/v1/messages`. */
  lemma CompatibleEndpointMatchesHeaders(apiKey: string, p: Provider, baseUrl: string)
    ensures var h := BuildHeaders(apiKey, p, baseUrl, IsAnthropicCompatible(p, baseUrl));
      ("x-api-key" in h <==> CompatibleEndpoint(baseUrl, p) == baseUrl + "/v1/messages")
  {
  }

  /**
   * The corrected endpoint differs from `getEndpoint` exactly on third-party
   * compatible URLs other than MiniMax '/anthropic' ones.
   */
  lemma CompatibleEndpointDiffers(baseUrl: string, p: Provider, model: string)
    ensures CompatibleEndpoint(baseUrl, p) != GetEndpoint(baseUrl, p, model) <==>
      IsAnthropicCompatible(p, baseUrl) && p != Anthropic && !(Contains(baseUrl, "minimax") && Contains(baseUrl, "/anthropic"))
  {
    assert baseUrl + "/v1/messages" != baseUrl + "/v1/chat/completions" by {
      assert (baseUrl + "/v1/messages")[|baseUrl| + 4] == 'm';
      assert (baseUrl + "/v1/chat/completions")[|baseUrl| + 4] == 'c';
    }
  }

  // ---------------------------------------------------------------------------
  // chat
  // ---------------------------------------------------------------------------

  datatype ChatSettings = ChatSettings(apiKey: string, baseUrl: string, defaultModel: string, providerType: Option<Provider>)

  datatype ChatOptions = ChatOptions(messages: seq<SimpleMessage>, model: Option<string>, maxTokens: Option<int>, temperature: Option<real>)

  datatype ApiUsage = ApiUsage(inputTokens: int, outputTokens: int)

  datatype ChatResponse = ChatResponse(
    id: Option<string>, responseType: Option<string>, role: Option<string>,
    content: Option<seq<ContentBlock>>, model: Option<string>, stopReason: Option<string>, usage: ApiUsage)

  /**
   * `ClaudeApiError(message, status, type)`, the `SyntaxError` of parsing a 2xx
   * body that is not JSON, or the rejection of a `reader.read()` that
   * `chatStream` rethrows after releasing the reader.
   */
  datatype ApiError =
    | ClaudeApiError(message: string, status: Option<nat>, errorType: Option<string>)
    | SyntaxError
    | ReadFailure(message: string)

  datatype Result<T> = Ok(value: T) | Err(error: ApiError)

  /** The transport `chat` uses: the Electron `apiFetch` proxy when present, else `fetch`. */
  datatype Transport = IpcProxy | Fetch

  /** The HTTP reply: its status and its body parsed as JSON (`None`: not JSON). */
  datatype Reply = Reply(status: nat, body: Option<ResponseJson>)

  const DefaultModel := "claude-sonnet-4-20250514"

  /** `errData.error?.message || errData.message || 'API request failed: <status>'` */
  function ErrorMessage(body: Option<ResponseJson>, status: nat): (m: string)
    ensures body.Some? && Truthy(body.value.errorMessage) ==> m == body.value.errorMessage.value
    ensures body.Some? && !Truthy(body.value.errorMessage) && Truthy(body.value.message) ==> m == body.value.message.value
    ensures !(body.Some? && (Truthy(body.value.errorMessage) || Truthy(body.value.message))) ==>
      m == "API request failed: " + NatToString(status)
  {
    var fallback := "API request failed: " + NatToString(status);
    match body
    case None => fallback
    case Some(b) => StringOr(b.errorMessage, StringOr(b.message, fallback))
  }

  /** `formatResponse`: Anthropic-shaped data is passed through; OpenAI-shaped data is normalised. */
  function FormatResponse(data: ResponseJson, model: string, p: Provider, compatible: bool, now: nat): (r: ChatResponse)
    ensures (p == Anthropic || compatible) ==>
      r.content == data.content && r.id == data.id && r.model == data.model
      && r.responseType == data.responseType && r.role == data.role && r.stopReason == data.stopReason
      && r.usage == ApiUsage(UsageCount(data.usage.GetOr(map[]), "input_tokens"), UsageCount(data.usage.GetOr(map[]), "output_tokens"))
    ensures !(p == Anthropic || compatible) ==>
      && r.responseType == Some("message")
      && r.content == Some([ContentBlock(Some("text"), Some(if data.choice.Some? then StringOr(data.choice.value.messageContent, "") else ""))])
      && r.usage == ApiUsage(UsageCount(data.usage.GetOr(map[]), "prompt_tokens"), UsageCount(data.usage.GetOr(map[]), "completion_tokens"))
      && r.role == Some(if data.choice.Some? then StringOr(data.choice.value.role, "assistant") else "assistant")
      && r.stopReason == Some(if data.choice.Some? then StringOr(data.choice.value.finishReason, "stop") else "stop")
      && r.id == Some(StringOr(data.id, "msg_" + NatToString(now)))
      && r.model == Some(StringOr(data.model, model))
  {
    var u := data.usage.GetOr(map[]);
    if p == Anthropic || compatible then
      ChatResponse(data.id, data.responseType, data.role, data.content, data.model, data.stopReason,
                   ApiUsage(UsageCount(u, "input_tokens"), UsageCount(u, "output_tokens")))
    else
      var text := if data.choice.Some? then StringOr(data.choice.value.messageContent, "") else "";
      var role := if data.choice.Some? then StringOr(data.choice.value.role, "assistant") else "assistant";
      var stop := if data.choice.Some? then StringOr(data.choice.value.finishReason, "stop") else "stop";
      ChatResponse(Some(StringOr(data.id, "msg_" + NatToString(now))), Some("message"), Some(role),
                   Some([ContentBlock(Some("text"), Some(text))]), Some(StringOr(data.model, model)), Some(stop),
                   ApiUsage(UsageCount(u, "prompt_tokens"), UsageCount(u, "completion_tokens")))
  }

  /** The model `chat` asks for: the option, else the settings' default, else Claude Sonnet 4. */
  function ChatModel(s: ChatSettings, o: ChatOptions): (m: string)
    ensures m != ""
    ensures Truthy(o.model) ==> m == o.model.value
  {
    StringOr(o.model, StringOr(Some(s.defaultModel), DefaultModel))
  }

  /**
   * `chat` without `onChunk`: the preflight checks, then the reply's status and
   * body. The reply does not depend on the endpoint; `ChatRequest` gives what is sent.
   */
  function Chat(s: ChatSettings, o: ChatOptions, t: Transport, reply: Reply, now: nat): (r: Result<ChatResponse>)
    ensures s.apiKey == "" ==> r == Err(ClaudeApiError("API key is required", None, None))
    ensures s.apiKey != "" && s.baseUrl == "" ==>
      r == Err(ClaudeApiError("Base URL is not configured. Please check your API settings.", None, None))
    ensures s.apiKey != "" && s.baseUrl != "" && !(200 <= reply.status < 300) ==>
      r == Err(ClaudeApiError(ErrorMessage(reply.body, reply.status), Some(reply.status),
                              if reply.body.Some? then reply.body.value.errorType else None))
    ensures s.apiKey != "" && s.baseUrl != "" && 200 <= reply.status < 300 && reply.body.None? ==> r == Err(SyntaxError)
    ensures r.Ok? <==> s.apiKey != "" && s.baseUrl != "" && 200 <= reply.status < 300 && reply.body.Some?
    ensures r.Ok? ==>
      var model := ChatModel(s, o);
      var p := s.providerType.GetOr(GetProviderType(model, s.baseUrl));
      var compatible := IsAnthropicCompatible(p, s.baseUrl);
      var data := reply.body.value;
      if t == IpcProxy && compatible then
        var u := data.usage.GetOr(map[]);
        && r.value.content == Some(data.content.GetOr([ContentBlock(Some("text"), Some(""))]))
        && r.value.id == Some(StringOr(data.id, "proxy")) && r.value.model == Some(StringOr(data.model, model))
        && r.value.stopReason == Some(StringOr(data.stopReason, "end_turn"))
        && r.value.usage == ApiUsage(UsageCount(u, "input_tokens"), UsageCount(u, "output_tokens"))
      else r.value == FormatResponse(data, model, p, compatible, now)
  {
    var model := ChatModel(s, o);
    if s.apiKey == "" then Err(ClaudeApiError("API key is required", None, None))
    else if s.baseUrl == "" then Err(ClaudeApiError("Base URL is not configured. Please check your API settings.", None, None))
    else
      var p := s.providerType.GetOr(GetProviderType(model, s.baseUrl));
      var compatible := IsAnthropicCompatible(p, s.baseUrl);
      if !(200 <= reply.status < 300) then
        Err(ClaudeApiError(ErrorMessage(reply.body, reply.status), Some(reply.status),
                           if reply.body.Some? then reply.body.value.errorType else None))
      else match reply.body
        case None => Err(SyntaxError)
        case Some(data) =>
          if t == IpcProxy && compatible then
            var u := data.usage.GetOr(map[]);
            Ok(ChatResponse(Some(StringOr(data.id, "proxy")), Some("message"), Some("assistant"),
                            Some(data.content.GetOr([ContentBlock(Some("text"), Some(""))])),
                            Some(StringOr(data.model, model)), Some(StringOr(data.stopReason, "end_turn")),
                            ApiUsage(UsageCount(u, "input_tokens"), UsageCount(u, "output_tokens"))))
          else Ok(FormatResponse(data, model, p, compatible, now))
  }

  datatype Request = Request(endpoint: string, headers: Headers, body: RequestBody)

  /** The request `chat` sends once the preflight checks pass, to the endpoint `getEndpoint` picks. */
  function ChatRequest(s: ChatSettings, o: ChatOptions): (r: Request)
    requires s.apiKey != "" && s.baseUrl != ""
    ensures var p := s.providerType.GetOr(GetProviderType(ChatModel(s, o), s.baseUrl));
      && ("x-api-key" in r.headers <==> IsAnthropicCompatible(p, s.baseUrl))
      && (r.endpoint == s.baseUrl + "/v1/messages" <==>
            p == Anthropic || (Contains(s.baseUrl, "minimax") && Contains(s.baseUrl, "/anthropic")))
      && r.body.model == ChatModel(s, o) && r.body.messages == o.messages && !r.body.stream
  {
    var model := ChatModel(s, o);
    var p := s.providerType.GetOr(GetProviderType(model, s.baseUrl));
    var compatible := IsAnthropicCompatible(p, s.baseUrl);
    HeadersFollowCompatibility(s.apiKey, p, s.baseUrl);
    Request(GetEndpoint(s.baseUrl, p, model), BuildHeaders(s.apiKey, p, s.baseUrl, compatible),
            BuildRequestBody(model, o.messages, o.maxTokens, o.temperature, p))
  }

  /** The corrected request: the same headers and body, sent to `CompatibleEndpoint`. */
  function ChatRequestFixed(s: ChatSettings, o: ChatOptions): (r: Request)
    requires s.apiKey != "" && s.baseUrl != ""
    ensures var p := s.providerType.GetOr(GetProviderType(ChatModel(s, o), s.baseUrl));
      && ("x-api-key" in r.headers <==> IsAnthropicCompatible(p, s.baseUrl))
      && (r.endpoint == s.baseUrl + "/v1/messages" <==> IsAnthropicCompatible(p, s.baseUrl))
      && r.headers == ChatRequest(s, o).headers && r.body == ChatRequest(s, o).body
  {
    var p := s.providerType.GetOr(GetProviderType(ChatModel(s, o), s.baseUrl));
    ChatRequest(s, o).(endpoint := CompatibleEndpoint(s.baseUrl, p))
  }

  /** On the moonshot base URL the request as written goes to `/v1/chat/completions` with `x-api-key`. */
  lemma ChatRequestMisroutes(o: ChatOptions)
    ensures var s := ChatSettings("k", MoonshotBaseUrl, "", Some(ThirdParty));
      && "x-api-key" in ChatRequest(s, o).headers
      && ChatRequest(s, o).endpoint == MoonshotBaseUrl + "/v1/chat/completions"
      && ChatRequestFixed(s, o).endpoint == MoonshotBaseUrl + "/v1/messages"
  {
    MoonshotIsAnthropicPath();
    MoonshotIsNotMiniMax();
  }

  // ---------------------------------------------------------------------------
  // chatStream, fetch path
  // ---------------------------------------------------------------------------

  /** Which of the three read loops runs: Anthropic-compatible, MiniMax, or OpenAI-style. */
  datatype StreamFlavour = AnthropicLoop | MiniMaxLoop | OpenAILoop

  function FlavourOf(p: Provider, baseUrl: string): StreamFlavour {
    if IsAnthropicCompatible(p, baseUrl) then AnthropicLoop
    else if Contains(baseUrl, "minimax") then MiniMaxLoop
    else OpenAILoop
  }

  /** `usage` starts as the zero `Usage` and is replaced by the wire object of a `message_delta`. */
  datatype StreamUsage = InitialUsage | WireUsage(wire: Usage)

  /** `fullContent`, the strings passed to `onChunk`, and `usage`. */
  datatype StreamAcc = StreamAcc(fullContent: string, emitted: seq<string>, usage: StreamUsage)

  const Empty := StreamAcc("", [], InitialUsage)

  /** One line of a read loop (no trimming: the payload is `line.slice(6)`). */
  function StreamLineStep(f: StreamFlavour, acc: StreamAcc, line: string, parse: string -> Option<Event>): StreamAcc {
    if !StartsWith(line, "data: ") then acc
    else
      var data := line[6..];
      if data == "[DONE]" || (f == MiniMaxLoop && data == "null") then acc
      else match parse(data)
        case None => acc
        case Some(e) =>
          if f == AnthropicLoop then
            if e.IsType("content_block_delta") then
              var text := StringOr(e.DeltaText(), "");
              StreamAcc(acc.fullContent + text, acc.emitted + [text], acc.usage)
            else if e.IsType("message_delta") then
              acc.(usage := if e.usage.Some? then WireUsage(e.usage.value) else acc.usage)
            else acc
          else
            var content := StringOr(e.choiceDeltaContent, StringOr(e.choiceMessageContent, ""));
            if content != "" then StreamAcc(acc.fullContent + content, acc.emitted + [content], acc.usage) else acc
  }

  function StreamLines(f: StreamFlavour, acc: StreamAcc, lines: seq<string>, parse: string -> Option<Event>): StreamAcc
    decreases |lines|
  {
    if |lines| == 0 then acc else StreamLineStep(f, StreamLines(f, acc, lines[..|lines| - 1], parse), lines[|lines| - 1], parse)
  }

  lemma {:induction false} StreamLinesAppend(f: StreamFlavour, acc: StreamAcc, a: seq<string>, b: seq<string>, parse: string -> Option<Event>)
    ensures StreamLines(f, acc, a + b, parse) == StreamLines(f, StreamLines(f, acc, a, parse), b, parse)
    decreases |b|
  {
    if |b| == 0 {
      assert a + b == a;
    } else {
      assert (a + b)[..|a + b| - 1] == a + b[..|b| - 1];
      StreamLinesAppend(f, acc, a, b[..|b| - 1], parse);
    }
  }

  /** The lines the unbuffered loops see: every chunk split on its own. */
  function PerChunkLines(chunks: seq<string>): seq<string>
    decreases |chunks|
  {
    if |chunks| == 0 then [] else PerChunkLines(chunks[..|chunks| - 1]) + Lines(chunks[|chunks| - 1])
  }

  /** The concatenation of the strings passed to `onChunk`. */
  function Joined(emitted: seq<string>): string
    decreases |emitted|
  {
    if |emitted| == 0 then "" else Joined(emitted[..|emitted| - 1]) + emitted[|emitted| - 1]
  }

  /** `fullContent` is always the concatenation of what was passed to `onChunk`. */
  lemma {:induction false} FullContentIsEmitted(f: StreamFlavour, lines: seq<string>, parse: string -> Option<Event>)
    ensures var acc := StreamLines(f, Empty, lines, parse); acc.fullContent == Joined(acc.emitted)
    decreases |lines|
  {
    if |lines| > 0 {
      FullContentIsEmitted(f, lines[..|lines| - 1], parse);
      var prev := StreamLines(f, Empty, lines[..|lines| - 1], parse);
      var next := StreamLines(f, Empty, lines, parse);
      if next.emitted != prev.emitted {
        assert next.emitted[..|next.emitted| - 1] == prev.emitted;
      }
    }
  }

  /** The MiniMax loop passes only non-empty strings to `onChunk`. */
  lemma {:induction false} MiniMaxEmitsNonEmpty(lines: seq<string>, parse: string -> Option<Event>)
    ensures forall k :: 0 <= k < |StreamLines(MiniMaxLoop, Empty, lines, parse).emitted| ==>
      StreamLines(MiniMaxLoop, Empty, lines, parse).emitted[k] != ""
    decreases |lines|
  {
    if |lines| > 0 {
      MiniMaxEmitsNonEmpty(lines[..|lines| - 1], parse);
    }
  }

  /** In the Anthropic loop a `message_delta` replaces `usage` (when it has one) instead of adding to it. */
  lemma AnthropicUsageReplaced(acc: StreamAcc, payload: string, parse: string -> Option<Event>, e: Event)
    requires payload != "[DONE]" && parse(payload) == Some(e) && e.IsType("message_delta") && e.usage.Some?
    ensures StreamLineStep(AnthropicLoop, acc, "data: " + payload, parse) == acc.(usage := WireUsage(e.usage.value))
  {
    assert StartsWith("data: " + payload, "data: ");
    assert ("data: " + payload)[6..] == payload;
  }

  /** `[DONE]`, and for MiniMax also `null`, are skipped. */
  lemma DoneSkipped(f: StreamFlavour, acc: StreamAcc, parse: string -> Option<Event>)
    ensures StreamLineStep(f, acc, "data: [DONE]", parse) == acc
    ensures StreamLineStep(MiniMaxLoop, acc, "data: null", parse) == acc
  {
    assert StartsWith("data: [DONE]", "data: ");
    assert "data: [DONE]"[6..] == "[DONE]";
    assert StartsWith("data: null", "data: ");
    assert "data: null"[6..] == "null";
  }

  /** One read loop of `chatStream` as written: each chunk is split on '\n' by itself, with nothing carried over. */
  method ReadUnbuffered(f: StreamFlavour, chunks: seq<string>, parse: string -> Option<Event>) returns (acc: StreamAcc)
    ensures acc == StreamLines(f, Empty, PerChunkLines(chunks), parse)
  {
    acc := Empty;
    var i := 0;
    while i < |chunks|
      invariant 0 <= i <= |chunks|
      invariant acc == StreamLines(f, Empty, PerChunkLines(chunks[..i]), parse)
    {
      var lines := Lines(chunks[i]);
      ghost var acc0 := acc;
      var j := 0;
      while j < |lines|
        invariant 0 <= j <= |lines|
        invariant acc == StreamLines(f, acc0, lines[..j], parse)
      {
        assert lines[..j + 1][..j] == lines[..j];
        acc := StreamLineStep(f, acc, lines[j], parse);
        j := j + 1;
      }
      assert lines[..j] == lines;
      assert chunks[..i + 1][..i] == chunks[..i];
      StreamLinesAppend(f, Empty, PerChunkLines(chunks[..i]), lines, parse);
      i := i + 1;
    }
    assert chunks[..i] == chunks;
  }

  /** A parser under which the payload `X` is a `content_block_delta` carrying "Hi". */
  function HiParser(s: string): Option<Event> {
    if s == "X" then Some(Event(Some("content_block_delta"), Some(Delta(None, Some("Hi"))), None, None, None, None)) else None
  }

  /**
   * The same body read in one piece or split after `data: ` gives different
   * text: the split line is decoded as two fragments and both are lost.
   */
  lemma UnbufferedDependsOnSplit()
    ensures Concat(["data: X\n"]) == Concat(["data: ", "X\n"])
    ensures StreamLines(AnthropicLoop, Empty, PerChunkLines(["data: X\n"]), HiParser).fullContent == "Hi"
    ensures StreamLines(AnthropicLoop, Empty, PerChunkLines(["data: ", "X\n"]), HiParser).fullContent == ""
  {
    assert ["data: ", "X\n"][..1] == ["data: "];
    assert Concat(["data: ", "X\n"]) == "data: " + "X\n";
    OneChunkLines();
    TwoChunkLines();
    OneChunkDecodes();
    TwoChunksDecode();
  }

  lemma OneChunkLines()
    ensures PerChunkLines(["data: X\n"]) == ["data: X", ""]
  {
    assert ["data: X\n"][..0] == [];
    SplitWithoutSeparator("data: X", '\n');
    SplitPieceThenSeparator("data: X", '\n');
    assert "data: X" + ['\n'] == "data: X\n";
  }

  lemma TwoChunkLines()
    ensures PerChunkLines(["data: ", "X\n"]) == ["data: ", "X", ""]
  {
    assert ["data: ", "X\n"][..1] == ["data: "];
    assert ["data: ", "X\n"][..1][..0] == [];
    SplitWithoutSeparator("data: ", '\n');
    SplitPieceThenSeparator("X", '\n');
    assert "X" + ['\n'] == "X\n";
  }

  lemma OneChunkDecodes()
    ensures StreamLines(AnthropicLoop, Empty, ["data: X", ""], HiParser).fullContent == "Hi"
  {
    var l := ["data: X", ""];
    assert l[..1] == ["data: X"] && l[..1][..0] == [];
    assert StartsWith("data: X", "data: ") && "data: X"[6..] == "X";
    assert !StartsWith("", "data: ");
  }

  lemma TwoChunksDecode()
    ensures StreamLines(AnthropicLoop, Empty, ["data: ", "X", ""], HiParser).fullContent == ""
  {
    var l := ["data: ", "X", ""];
    assert l[..2] == ["data: ", "X"] && l[..2][..1] == ["data: "] && l[..2][..1][..0] == [];
    assert StartsWith("data: ", "data: ") && "data: "[6..] == "";
    assert !StartsWith("X", "data: ");
    assert !StartsWith("", "data: ");
    assert HiParser("") == None;
    assert StreamLineStep(AnthropicLoop, Empty, "data: ", HiParser) == Empty;
    var a1 := StreamLines(AnthropicLoop, Empty, l[..1], HiParser);
    assert a1 == StreamLineStep(AnthropicLoop, StreamLines(AnthropicLoop, Empty, [], HiParser), "data: ", HiParser);
    var a2 := StreamLines(AnthropicLoop, Empty, l[..2], HiParser);
    assert l[..2][..1] == l[..1];
    assert a2 == StreamLineStep(AnthropicLoop, a1, "X", HiParser);
  }

  /** `for (const line of lines)`: each line decoded into the accumulator in turn. */
  method StreamEach(f: StreamFlavour, acc0: StreamAcc, lines: seq<string>, parse: string -> Option<Event>) returns (acc: StreamAcc)
    ensures acc == StreamLines(f, acc0, lines, parse)
  {
    acc := acc0;
    var j := 0;
    while j < |lines|
      invariant 0 <= j <= |lines|
      invariant acc == StreamLines(f, acc0, lines[..j], parse)
    {
      assert lines[..j + 1][..j] == lines[..j];
      acc := StreamLineStep(f, acc, lines[j], parse);
      j := j + 1;
    }
    assert lines[..j] == lines;
  }

  /**
   * The reads of the loop with a carry-over buffer: complete lines are decoded
   * as they arrive and the unterminated piece is carried into the next read.
   */
  method ReadComplete(f: StreamFlavour, chunks: seq<string>, parse: string -> Option<Event>) returns (acc: StreamAcc, buffer: string)
    ensures acc == StreamLines(f, Empty, CompleteLines(Concat(chunks)), parse)
    ensures buffer == Carry(Concat(chunks))
  {
    acc := Empty;
    buffer := "";
    var i := 0;
    while i < |chunks|
      invariant 0 <= i <= |chunks|
      invariant buffer == Carry(Concat(chunks[..i]))
      invariant acc == StreamLines(f, Empty, CompleteLines(Concat(chunks[..i])), parse)
    {
      ghost var before := Concat(chunks[..i]);
      assert chunks[..i + 1][..i] == chunks[..i];
      buffer := buffer + chunks[i];
      var lines := Lines(buffer);
      buffer := lines[|lines| - 1];
      acc := StreamEach(f, acc, lines[..|lines| - 1], parse);
      assert lines[..|lines| - 1] == CompleteLines(Carry(before) + chunks[i]);
      CarryStep(before, chunks[i]);
      StreamLinesAppend(f, Empty, CompleteLines(before), CompleteLines(Carry(before) + chunks[i]), parse);
      i := i + 1;
    }
    assert chunks[..i] == chunks;
  }

  /**
   * The corrected loop: the reads of `ReadComplete`, then the final
   * unterminated piece once the body ends, so the result is that of the
   * whole body split once.
   */
  method ReadBuffered(f: StreamFlavour, chunks: seq<string>, parse: string -> Option<Event>) returns (acc: StreamAcc)
    ensures acc == StreamLines(f, Empty, Lines(Concat(chunks)), parse)
  {
    var buffer;
    acc, buffer := ReadComplete(f, chunks, parse);
    acc := StreamLineStep(f, acc, buffer, parse);
    assert Lines(Concat(chunks)) == CompleteLines(Concat(chunks)) + [Carry(Concat(chunks))];
    StreamLinesAppend(f, Empty, CompleteLines(Concat(chunks)), [buffer], parse);
  }

  /** The buffered loop does not depend on where the body was split. */
  lemma BufferedSplitIndependent(f: StreamFlavour, c1: seq<string>, c2: seq<string>, parse: string -> Option<Event>)
    requires Concat(c1) == Concat(c2)
    ensures StreamLines(f, Empty, Lines(Concat(c1)), parse) == StreamLines(f, Empty, Lines(Concat(c2)), parse)
  {
  }

  /** On a body delivered in one chunk, the buffered loop and the loop as written agree. */
  lemma BufferedAgreesOnOneChunk(c: string)
    ensures PerChunkLines([c]) == Lines(Concat([c]))
  {
    assert [c][..0] == [];
    assert Concat([c]) == c;
  }

  /**
   * The final `ChatResponse` of the streaming path. A wire usage object is
   * returned as it came, so its snake_case counts are not the `inputTokens`
   * and `outputTokens` the response type names.
   */
  function StreamResponse(acc: StreamAcc, model: string, now: nat): (r: ChatResponse)
    ensures r.content == Some([ContentBlock(Some("text"), Some(acc.fullContent))])
    ensures r.id == Some("msg_" + NatToString(now)) && r.model == Some(model)
    ensures r.role == Some("assistant") && r.stopReason == Some("end_turn")
    ensures acc.usage.InitialUsage? ==> r.usage == ApiUsage(0, 0)
    ensures acc.usage.WireUsage? ==>
      r.usage == ApiUsage(UsageCount(acc.usage.wire, "inputTokens"), UsageCount(acc.usage.wire, "outputTokens"))
  {
    var u := match acc.usage
      case InitialUsage => ApiUsage(0, 0)
      case WireUsage(w) => ApiUsage(UsageCount(w, "inputTokens"), UsageCount(w, "outputTokens"));
    ChatResponse(Some("msg_" + NatToString(now)), Some("message"), Some("assistant"),
                 Some([ContentBlock(Some("text"), Some(acc.fullContent))]), Some(model), Some("end_turn"), u)
  }

  /**
   * The IPC-proxy branch of `chatStream`: the proxy returns the whole reply,
   * whose text is passed to `onChunk` once and is also the response content.
   */
  function ProxyStream(data: ResponseJson, model: string, compatible: bool): (r: (seq<string>, ChatResponse))
    ensures |r.0| == 1 && r.1.content == Some([ContentBlock(Some("text"), Some(r.0[0]))])
    ensures compatible && data.content.Some? && |data.content.value| > 0 && Truthy(data.content.value[0].text) ==>
      r.0[0] == data.content.value[0].text.value
    ensures !compatible && data.choice.Some? && Truthy(data.choice.value.messageContent) ==>
      r.0[0] == data.choice.value.messageContent.value
    ensures compatible && !(data.content.Some? && |data.content.value| > 0 && Truthy(data.content.value[0].text)) ==> r.0[0] == ""
    ensures !compatible && !(data.choice.Some? && Truthy(data.choice.value.messageContent)) ==> r.0[0] == ""
    ensures r.1.id == Some(StringOr(data.id, "ipc-proxy")) && r.1.model == Some(StringOr(data.model, model))
    ensures r.1.responseType == Some("message") && r.1.role == Some("assistant")
    ensures r.1.stopReason == Some(
      if compatible then StringOr(data.stopReason, "end_turn")
      else if data.choice.Some? then StringOr(data.choice.value.finishReason, "end_turn")
      else "end_turn")
    ensures var u := data.usage.GetOr(map[]);
      r.1.usage == if compatible then ApiUsage(UsageCount(u, "input_tokens"), UsageCount(u, "output_tokens"))
                   else ApiUsage(UsageCount(u, "prompt_tokens"), UsageCount(u, "completion_tokens"))
  {
    var u := data.usage.GetOr(map[]);
    if compatible then
      var content := if data.content.Some? && |data.content.value| > 0 then StringOr(data.content.value[0].text, "") else "";
      ([content], ChatResponse(Some(StringOr(data.id, "ipc-proxy")), Some("message"), Some("assistant"),
                               Some([ContentBlock(Some("text"), Some(content))]), Some(StringOr(data.model, model)),
                               Some(StringOr(data.stopReason, "end_turn")),
                               ApiUsage(UsageCount(u, "input_tokens"), UsageCount(u, "output_tokens"))))
    else
      var content := if data.choice.Some? then StringOr(data.choice.value.messageContent, "") else "";
      var stop := if data.choice.Some? then StringOr(data.choice.value.finishReason, "end_turn") else "end_turn";
      ([content], ChatResponse(Some(StringOr(data.id, "ipc-proxy")), Some("message"), Some("assistant"),
                               Some([ContentBlock(Some("text"), Some(content))]), Some(StringOr(data.model, model)),
                               Some(stop), ApiUsage(UsageCount(u, "prompt_tokens"), UsageCount(u, "completion_tokens"))))
  }

  /**
   * A streaming reply: its status, the body parsed whole as JSON, the body's
   * chunks (`None`: no body), and the rejection, if any, of the read that
   * follows the last chunk.
   */
  datatype StreamReply = StreamReply(status: nat, json: Option<ResponseJson>, chunks: Option<seq<string>>, readError: Option<string>)

  /**
   * The outcomes of `chat` with `onChunk` that do not read a fetch body: the
   * preflight checks, the status, the IPC proxy's whole reply, and a missing
   * body. `None` exactly when a fetch body is there to read.
   */
  function Settled(s: ChatSettings, o: ChatOptions, t: Transport, reply: StreamReply): (r: Option<(seq<string>, Result<ChatResponse>)>)
    ensures r.None? <==> s.apiKey != "" && s.baseUrl != "" && 200 <= reply.status < 300 && t == Fetch && reply.chunks.Some?
    ensures s.apiKey == "" ==> r == Some(([], Err(ClaudeApiError("API key is required", None, None))))
    ensures s.apiKey != "" && s.baseUrl == "" ==>
      r == Some(([], Err(ClaudeApiError("Base URL is not configured. Please check your API settings.", None, None))))
    ensures s.apiKey != "" && s.baseUrl != "" && !(200 <= reply.status < 300) ==>
      r == Some(([], Err(ClaudeApiError(ErrorMessage(reply.json, reply.status), Some(reply.status),
                                        if reply.json.Some? then reply.json.value.errorType else None))))
    ensures t == Fetch && s.apiKey != "" && s.baseUrl != "" && 200 <= reply.status < 300 && reply.chunks.None? ==>
      r == Some(([], Err(ClaudeApiError("No response body", None, None))))
    ensures t == IpcProxy && s.apiKey != "" && s.baseUrl != "" && 200 <= reply.status < 300 ==>
      var p := s.providerType.GetOr(GetProviderType(ChatModel(s, o), s.baseUrl));
      r == Some(if reply.json.None? then ([], Err(SyntaxError))
                else var out := ProxyStream(reply.json.value, ChatModel(s, o), IsAnthropicCompatible(p, s.baseUrl));
                     (out.0, Ok(out.1)))
    ensures r.Some? && r.value.1.Err? ==> r.value.0 == []
    ensures r.Some? && r.value.1.Ok? ==>
      && t == IpcProxy && |r.value.0| == 1
      && r.value.1.value.content == Some([ContentBlock(Some("text"), Some(r.value.0[0]))])
  {
    var model := ChatModel(s, o);
    if s.apiKey == "" then Some(([], Err(ClaudeApiError("API key is required", None, None))))
    else if s.baseUrl == "" then Some(([], Err(ClaudeApiError("Base URL is not configured. Please check your API settings.", None, None))))
    else if !(200 <= reply.status < 300) then
      Some(([], Err(ClaudeApiError(ErrorMessage(reply.json, reply.status), Some(reply.status),
                                   if reply.json.Some? then reply.json.value.errorType else None))))
    else if t == IpcProxy then
      if reply.json.None? then Some(([], Err(SyntaxError)))
      else
        var p := s.providerType.GetOr(GetProviderType(model, s.baseUrl));
        var out := ProxyStream(reply.json.value, model, IsAnthropicCompatible(p, s.baseUrl));
        Some((out.0, Ok(out.1)))
    else if reply.chunks.None? then Some(([], Err(ClaudeApiError("No response body", None, None))))
    else assert t == Fetch; None
  }

  /** The read loop `chatStream` runs for these settings. */
  function FlavourFor(s: ChatSettings, o: ChatOptions): StreamFlavour {
    FlavourOf(s.providerType.GetOr(GetProviderType(ChatModel(s, o), s.baseUrl)), s.baseUrl)
  }

  /**
   * `chat` with `onChunk`, as written: outcomes that read no fetch body are
   * those of `Settled`; otherwise every chunk is decoded on its own, each
   * string is passed to `onChunk` as it is decoded, and a read that rejects
   * after them fails the call with those strings already passed on.
   */
  method ChatStream(s: ChatSettings, o: ChatOptions, t: Transport, reply: StreamReply, parse: string -> Option<Event>, now: nat)
    returns (emitted: seq<string>, r: Result<ChatResponse>)
    ensures Settled(s, o, t, reply).Some? ==> (emitted, r) == Settled(s, o, t, reply).value
    ensures Settled(s, o, t, reply).None? ==>
      var acc := StreamLines(FlavourFor(s, o), Empty, PerChunkLines(reply.chunks.value), parse);
      && emitted == acc.emitted
      && (reply.readError.Some? ==> r == Err(ReadFailure(reply.readError.value)))
      && (reply.readError.None? ==> r == Ok(StreamResponse(acc, ChatModel(s, o), now)))
    ensures r.Ok? && t == Fetch ==> r.value.content == Some([ContentBlock(Some("text"), Some(Joined(emitted)))])
  {
    var early := Settled(s, o, t, reply);
    if early.Some? {
      emitted, r := early.value.0, early.value.1;
      return;
    }
    var acc := ReadUnbuffered(FlavourFor(s, o), reply.chunks.value, parse);
    FullContentIsEmitted(FlavourFor(s, o), PerChunkLines(reply.chunks.value), parse);
    emitted := acc.emitted;
    if reply.readError.Some? {
      r := Err(ReadFailure(reply.readError.value));
    } else {
      r := Ok(StreamResponse(acc, ChatModel(s, o), now));
    }
  }

  /**
   * The corrected `chat` with `onChunk`: the fetch body is read with the
   * carry-over buffer, so what is passed to `onChunk` is the decoding of the
   * lines of the body received so far; a rejected read leaves its
   * unterminated tail undecoded.
   */
  method ChatStreamFixed(s: ChatSettings, o: ChatOptions, t: Transport, reply: StreamReply, parse: string -> Option<Event>, now: nat)
    returns (emitted: seq<string>, r: Result<ChatResponse>)
    ensures Settled(s, o, t, reply).Some? ==> (emitted, r) == Settled(s, o, t, reply).value
    ensures Settled(s, o, t, reply).None? && reply.readError.Some? ==>
      && emitted == StreamLines(FlavourFor(s, o), Empty, CompleteLines(Concat(reply.chunks.value)), parse).emitted
      && r == Err(ReadFailure(reply.readError.value))
    ensures Settled(s, o, t, reply).None? && reply.readError.None? ==>
      var acc := StreamLines(FlavourFor(s, o), Empty, Lines(Concat(reply.chunks.value)), parse);
      emitted == acc.emitted && r == Ok(StreamResponse(acc, ChatModel(s, o), now))
    ensures r.Ok? && t == Fetch ==> r.value.content == Some([ContentBlock(Some("text"), Some(Joined(emitted)))])
  {
    var early := Settled(s, o, t, reply);
    if early.Some? {
      emitted, r := early.value.0, early.value.1;
      return;
    }
    if reply.readError.Some? {
      var acc, _ := ReadComplete(FlavourFor(s, o), reply.chunks.value, parse);
      emitted := acc.emitted;
      r := Err(ReadFailure(reply.readError.value));
    } else {
      var acc := ReadBuffered(FlavourFor(s, o), reply.chunks.value, parse);
      FullContentIsEmitted(FlavourFor(s, o), Lines(Concat(reply.chunks.value)), parse);
      emitted := acc.emitted;
      r := Ok(StreamResponse(acc, ChatModel(s, o), now));
    }
  }
}
