/**
 * The stand-alone chat panel (src/components/chat/chat.tsx): the send guards,
 * provider routing, the buffered stream reader that appends text and sums
 * output tokens, the end-of-turn handling that treats an abort as no error,
 * and stop.
 */
module ChatPanel {
  import opened Wrappers
  import opened JsString
  import opened Wire
  import opened LineSplit
  import ClaudeApi
  import MainAgent
  import ApiSettingsHook
  import opened UseChat

  // ---------------------------------------------------------------------------
  // Routing
  // ---------------------------------------------------------------------------

  datatype PanelRequest = PanelRequest(url: string, headers: map<string, string>, model: string, maxTokens: int, stream: bool,
                                       messages: seq<(Role, string)>)

  /**
   * 'anthropic' posts to `/v1/messages` with `x-api-key`, 'thirdparty' to
   * `/v1/messages` with a Bearer token, and 'claude-code' to the local
   * `/api/chat` with no credentials; the body always streams.
   */
  function Route(s: ApiSettingsHook.ApiSettings, history: seq<(Role, string)>): (r: PanelRequest)
    ensures "Content-Type" in r.headers && r.headers["Content-Type"] == "application/json"
    ensures r.stream && r.maxTokens == 4096 && r.model == s.defaultModel && r.messages == history
    ensures s.providerType == ClaudeApi.Anthropic ==>
      r.url == s.baseUrl + "/v1/messages" && "x-api-key" in r.headers && r.headers["x-api-key"] == s.apiKey
      && "anthropic-version" in r.headers && "Authorization" !in r.headers
    ensures s.providerType == ClaudeApi.ThirdParty ==>
      r.url == s.baseUrl + "/v1/messages" && "Authorization" in r.headers && r.headers["Authorization"] == "Bearer " + s.apiKey
      && "x-api-key" !in r.headers
    ensures s.providerType == ClaudeApi.ClaudeCode ==> r.url == "/api/chat" && r.headers.Keys == {"Content-Type"}
  {
    var base := map["Content-Type" := "application/json"];
    match s.providerType
    case Anthropic =>
      PanelRequest(s.baseUrl + "/v1/messages", base["x-api-key" := s.apiKey]["anthropic-version" := "2023-06-01"],
                   s.defaultModel, 4096, true, history)
    case ThirdParty =>
      PanelRequest(s.baseUrl + "/v1/messages", base["Authorization" := "Bearer " + s.apiKey], s.defaultModel, 4096, true, history)
    case ClaudeCode =>
      PanelRequest("/api/chat", base, s.defaultModel, 4096, true, history)
  }

  // ---------------------------------------------------------------------------
  // The reader
  // ---------------------------------------------------------------------------

  /** What lines contribute: text appended to the assistant message and output tokens added. */
  datatype Effect = Effect(text: string, outputTokens: int)

  const NoEffect := Effect("", 0)

  function Then(a: Effect, b: Effect): Effect {
    Effect(a.text + b.text, a.outputTokens + b.outputTokens)
  }

  /**
   * One complete line: a `data: ` payload other than `[DONE]` that parses as a
   * `content_block_delta` adds `delta.text || ''`; a `message_delta` with a usage
   * adds `usage.output_tokens || 0`; everything else is ignored.
   */
  function LineEffect(line: string, parse: string -> Option<Event>): (r: Effect)
    ensures !StartsWith(line, "data: ") ==> r == NoEffect
    ensures r.text != "" ==> r.outputTokens == 0
  {
    if !StartsWith(line, "data: ") then NoEffect
    else
      var data := line[6..];
      if data == "[DONE]" then NoEffect
      else match parse(data)
        case None => NoEffect
        case Some(e) =>
          if e.IsType("content_block_delta") then Effect(StringOr(e.DeltaText(), ""), 0)
          else if e.IsType("message_delta") && e.usage.Some? then Effect("", UsageCount(e.usage.value, "output_tokens"))
          else NoEffect
  }

  function Effects(lines: seq<string>, parse: string -> Option<Event>): Effect
    decreases |lines|
  {
    if |lines| == 0 then NoEffect else Then(Effects(lines[..|lines| - 1], parse), LineEffect(lines[|lines| - 1], parse))
  }

  lemma {:induction false} EffectsAppend(a: seq<string>, b: seq<string>, parse: string -> Option<Event>)
    ensures Effects(a + b, parse) == Then(Effects(a, parse), Effects(b, parse))
    decreases |b|
  {
    if |b| == 0 {
      assert a + b == a;
    } else {
      var init, last := b[..|b| - 1], b[|b| - 1];
      assert (a + b)[..|a + b| - 1] == a + init && (a + b)[|a + b| - 1] == last;
      EffectsAppend(a, init, parse);
      ThenAssoc(Effects(a, parse), Effects(init, parse), LineEffect(last, parse));
    }
  }

  lemma ThenAssoc(x: Effect, y: Effect, z: Effect)
    ensures Then(Then(x, y), z) == Then(x, Then(y, z))
  {
    assert x.text + y.text + z.text == x.text + (y.text + z.text);
  }

  /** Output tokens are summed over the `message_delta` lines, never overwritten. */
  lemma OutputTokensSummed(l1: string, l2: string, parse: string -> Option<Event>)
    ensures Effects([l1, l2], parse).outputTokens == LineEffect(l1, parse).outputTokens + LineEffect(l2, parse).outputTokens
  {
    assert [l1, l2][..1] == [l1];
    assert [l1, l2][..1][..0] == [];
    assert Effects([l1], parse) == Then(NoEffect, LineEffect(l1, parse));
  }

  /** Text after the last '\n' of the body is never read. */
  lemma UnterminatedLineIgnored(body: string, tail: string, parse: string -> Option<Event>)
    requires body == "" || body[|body| - 1] == '\n'
    requires '\n' !in tail
    ensures Effects(CompleteLines(body + tail), parse) == Effects(CompleteLines(body), parse)
  {
    UnterminatedTailIgnored(body, tail);
  }

  /** The thrown value a failed turn carries: `err.name` and `err.message`. */
  type Thrown = MainAgent.Thrown

  /**
   * How the request went: the fetch threw; or a reply came with `ok`, its
   * status and text, its body's chunks (`None`: no body), and whatever the
   * reader threw after those chunks (an abort, for instance).
   */
  datatype Reply =
    | FetchThrew(thrown: Thrown)
    | HttpReply(ok: bool, status: nat, text: string, chunks: Option<seq<string>>, interrupted: Option<Thrown>)

  const ApologyPrefix := "抱歉，发生了错误："

  /** A message-list update that ends streaming on one message and keeps its content (no error). */
  function StopStreaming(ms: seq<Message>, id: string): (r: seq<Message>)
    ensures |r| == |ms|
    ensures forall k :: 0 <= k < |r| && ms[k].id != id ==> r[k] == ms[k]
    ensures forall k :: 0 <= k < |r| && ms[k].id == id ==> r[k] == ms[k].(isStreaming := false)
  {
    seq(|ms|, k requires 0 <= k < |ms| => if ms[k].id == id then ms[k].(isStreaming := false) else ms[k])
  }

  /** The failed-turn update: the content becomes the apology with the message, and streaming ends. */
  function Apologise(ms: seq<Message>, id: string, message: Option<string>): (r: seq<Message>)
    ensures |r| == |ms|
    ensures forall k :: 0 <= k < |r| && ms[k].id != id ==> r[k] == ms[k]
    ensures forall k :: 0 <= k < |r| && ms[k].id == id ==>
      r[k] == ms[k].(content := ApologyPrefix + StringOr(message, "未知错误"), isStreaming := false)
  {
    seq(|ms|, k requires 0 <= k < |ms| =>
      if ms[k].id == id then ms[k].(content := ApologyPrefix + StringOr(message, "未知错误"), isStreaming := false) else ms[k])
  }

  /** `handleStop`'s update: every streaming message stops, and no error is recorded. */
  function StopEvery(ms: seq<Message>): (r: seq<Message>)
    ensures |r| == |ms|
    ensures forall k :: 0 <= k < |r| ==> r[k] == ms[k].(isStreaming := false)
  {
    seq(|ms|, k requires 0 <= k < |ms| => if ms[k].isStreaming then ms[k].(isStreaming := false) else ms[k])
  }

  /** Unlike the hook's stop, the panel's stop leaves every message's `error` as it was. */
  lemma StopDiffersFromHook(ms: seq<Message>)
    ensures forall k :: 0 <= k < |ms| ==> StopEvery(ms)[k].error == ms[k].error
    ensures forall k :: 0 <= k < |ms| && ms[k].isStreaming ==> StopAll(ms)[k].error == Some(UserAborted)
  {
  }

  const NoApiKey := "请先在设置中配置 API Key"

  /** The panel's state: the input box, messages, `isStreaming`, the error banner and the token totals. */
  /** One read of the body: the lines completed by a chunk extend the effects of the lines before it. */
  lemma ReadStep(m0: seq<Message>, id: string, before: string, chunk: string, parse: string -> Option<Event>)
    ensures var done := Effects(CompleteLines(before), parse);
      var step := Effects(CompleteLines(Carry(before) + chunk), parse);
      var all := Effects(CompleteLines(before + chunk), parse);
      && AppendContent(AppendContent(m0, id, done.text), id, step.text) == AppendContent(m0, id, all.text)
      && done.outputTokens + step.outputTokens == all.outputTokens
      && Carry(before + chunk) == Carry(Carry(before) + chunk)
  {
    CarryStep(before, chunk);
    EffectsAppend(CompleteLines(before), CompleteLines(Carry(before) + chunk), parse);
    AppendContentTwice(m0, id, Effects(CompleteLines(before), parse).text, Effects(CompleteLines(Carry(before) + chunk), parse).text);
  }

  class Panel {
    var input: string
    var messages: seq<Message>
    var isStreaming: bool
    var error: Option<string>
    var tokens: TokenStats

    constructor ()
      ensures input == "" && messages == [] && !isStreaming && error.None? && tokens == TokenStats(0, 0)
    {
      input := "";
      messages := [];
      isStreaming := false;
      error := None;
      tokens := TokenStats(0, 0);
    }

    /**
     * `handleSend` up to `callApi`: nothing for blank input or while
     * streaming; the banner without a key (unless the provider is
     * 'claude-code'); otherwise the trimmed user message and an empty
     * streaming assistant message. Returns the history to send.
     */
    method HandleSend(s: ApiSettingsHook.ApiSettings, now: nat) returns (history: Option<seq<(Role, string)>>)
      modifies this
      ensures Trim(old(input)) == "" || old(isStreaming) ==>
        history.None? && messages == old(messages) && input == old(input) && isStreaming == old(isStreaming) && error == old(error)
      ensures Trim(old(input)) != "" && !old(isStreaming) && s.apiKey == "" && s.providerType != ClaudeApi.ClaudeCode ==>
        history.None? && messages == old(messages) && input == old(input) && !isStreaming && error == Some(NoApiKey)
      ensures Trim(old(input)) != "" && !old(isStreaming) && (s.apiKey != "" || s.providerType == ClaudeApi.ClaudeCode) ==>
        && messages == AgentTurn(old(messages), Trim(old(input)), now)
        && history == Some(HistoryOf(old(messages)) + [(User, Trim(old(input)))])
        && input == "" && isStreaming && error.None?
      ensures tokens == old(tokens)
    {
      history := None;
      if Trim(input) == "" || isStreaming {
        return;
      }
      if s.apiKey == "" && s.providerType != ClaudeApi.ClaudeCode {
        error := Some(NoApiKey);
        return;
      }
      var content := Trim(input);
      history := Some(HistoryOf(messages) + [(User, content)]);
      StartTurn(content, now);
    }

    /** Appends the turn's two messages, empties the input and starts streaming. */
    method StartTurn(content: string, now: nat)
      modifies this
      ensures messages == AgentTurn(old(messages), content, now) && input == "" && isStreaming && error.None?
      ensures tokens == old(tokens)
    {
      messages := AgentTurn(messages, content, now);
      input := "";
      isStreaming := true;
      error := None;
    }

    /** One complete line of the reader. */
    method HandleLine(assistantId: string, line: string, parse: string -> Option<Event>)
      modifies this
      ensures messages == AppendContent(old(messages), assistantId, LineEffect(line, parse).text)
      ensures tokens == old(tokens).(outputTokens := old(tokens).outputTokens + LineEffect(line, parse).outputTokens)
      ensures input == old(input) && isStreaming == old(isStreaming) && error == old(error)
    {
      if StartsWith(line, "data: ") {
        var data := line[6..];
        if data != "[DONE]" {
          var parsed := parse(data);
          if parsed.Some? {
            var e := parsed.value;
            if e.IsType("content_block_delta") {
              messages := AppendContent(messages, assistantId, StringOr(e.DeltaText(), ""));
              return;
            } else if e.IsType("message_delta") && e.usage.Some? {
              tokens := tokens.(outputTokens := tokens.outputTokens + UsageCount(e.usage.value, "output_tokens"));
            }
          }
        }
      }
      AppendNothing(messages, assistantId);
    }

    /** Handles a run of complete lines in order. */
    method HandleLines(assistantId: string, lines: seq<string>, parse: string -> Option<Event>)
      modifies this
      ensures messages == AppendContent(old(messages), assistantId, Effects(lines, parse).text)
      ensures tokens == old(tokens).(outputTokens := old(tokens).outputTokens + Effects(lines, parse).outputTokens)
      ensures input == old(input) && isStreaming == old(isStreaming) && error == old(error)
    {
      ghost var m0 := messages;
      ghost var t0 := tokens;
      AppendNothing(m0, assistantId);
      var j := 0;
      while j < |lines|
        invariant 0 <= j <= |lines|
        invariant messages == AppendContent(m0, assistantId, Effects(lines[..j], parse).text)
        invariant tokens == t0.(outputTokens := t0.outputTokens + Effects(lines[..j], parse).outputTokens)
        invariant input == old(input) && isStreaming == old(isStreaming) && error == old(error)
      {
        ghost var sofar := Effects(lines[..j], parse);
        HandleLine(assistantId, lines[j], parse);
        AppendContentTwice(m0, assistantId, sofar.text, LineEffect(lines[j], parse).text);
        assert lines[..j + 1][..j] == lines[..j];
        j := j + 1;
      }
      assert lines[..j] == lines;
    }

    /** One read: the carried text and the chunk are split into lines; the complete ones are handled and the last is carried. */
    method ReadChunk(assistantId: string, buffer: string, chunk: string, parse: string -> Option<Event>) returns (carry: string)
      modifies this
      ensures carry == Carry(buffer + chunk)
      ensures messages == AppendContent(old(messages), assistantId, Effects(CompleteLines(buffer + chunk), parse).text)
      ensures tokens == old(tokens).(outputTokens := old(tokens).outputTokens + Effects(CompleteLines(buffer + chunk), parse).outputTokens)
      ensures input == old(input) && isStreaming == old(isStreaming) && error == old(error)
    {
      var lines := Lines(buffer + chunk);
      carry := lines[|lines| - 1];
      HandleLines(assistantId, lines[..|lines| - 1], parse);
    }

    /**
     * The reader loop: the text after the last '\n' stays in `buffer`, so only
     * complete lines of the body are handled, whatever its split into chunks.
     */
    method ReadBody(assistantId: string, chunks: seq<string>, parse: string -> Option<Event>)
      modifies this
      ensures messages == AppendContent(old(messages), assistantId, Effects(CompleteLines(Concat(chunks)), parse).text)
      ensures tokens == old(tokens).(outputTokens := old(tokens).outputTokens + Effects(CompleteLines(Concat(chunks)), parse).outputTokens)
      ensures input == old(input) && isStreaming == old(isStreaming) && error == old(error)
    {
      ghost var m0 := messages;
      ghost var t0 := tokens;
      ghost var read := "";
      var buffer := "";
      var i := 0;
      AppendNothing(m0, assistantId);
      while i < |chunks|
        invariant 0 <= i <= |chunks|
        invariant read == Concat(chunks[..i])
        invariant buffer == Carry(read)
        invariant messages == AppendContent(m0, assistantId, Effects(CompleteLines(read), parse).text)
        invariant tokens == t0.(outputTokens := t0.outputTokens + Effects(CompleteLines(read), parse).outputTokens)
        invariant input == old(input) && isStreaming == old(isStreaming) && error == old(error)
      {
        ConcatSnoc(chunks, i);
        ReadStep(m0, assistantId, read, chunks[i], parse);
        buffer := ReadChunk(assistantId, buffer, chunks[i], parse);
        read := read + chunks[i];
        i := i + 1;
      }
      assert chunks[..i] == chunks;
    }

    /**
     * The end of a turn that threw: an `AbortError` only ends streaming and
     * keeps the content; anything else sets the banner and replaces the content
     * with the apology.
     */
    method Fail(assistantId: string, t: Thrown)
      modifies this
      ensures t.name == Some("AbortError") ==> messages == StopStreaming(old(messages), assistantId) && error == old(error)
      ensures t.name != Some("AbortError") ==>
        messages == Apologise(old(messages), assistantId, t.message) && error == Some(StringOr(t.message, "请求失败"))
      ensures !isStreaming && input == old(input) && tokens == old(tokens)
    {
      if t.name == Some("AbortError") {
        messages := StopStreaming(messages, assistantId);
      } else {
        error := Some(StringOr(t.message, "请求失败"));
        messages := Apologise(messages, assistantId, t.message);
      }
      isStreaming := false;
    }

    /** `callApi` after the request was sent. */
    method CallApi(assistantId: string, reply: Reply, parse: string -> Option<Event>)
      modifies this
      ensures !isStreaming && input == old(input)
      ensures reply.FetchThrew? && reply.thrown.name == Some("AbortError") ==>
        messages == StopStreaming(old(messages), assistantId) && error == old(error)
      ensures reply.FetchThrew? && reply.thrown.name != Some("AbortError") ==>
        messages == Apologise(old(messages), assistantId, reply.thrown.message)
        && error == Some(StringOr(reply.thrown.message, "请求失败"))
      ensures reply.HttpReply? && !reply.ok ==>
        messages == Apologise(old(messages), assistantId, Some("API 请求失败: " + NatToString(reply.status) + " - " + reply.text))
        && error == Some("API 请求失败: " + NatToString(reply.status) + " - " + reply.text)
      ensures reply.HttpReply? && reply.ok && reply.chunks.None? ==>
        messages == Apologise(old(messages), assistantId, Some("无法读取响应")) && error == Some("无法读取响应")
      ensures reply.HttpReply? && reply.ok && reply.chunks.Some? && reply.interrupted.None? ==>
        var eff := Effects(CompleteLines(Concat(reply.chunks.value)), parse);
        && messages == StopStreaming(AppendContent(old(messages), assistantId, eff.text), assistantId)
        && tokens.outputTokens == old(tokens).outputTokens + eff.outputTokens
        && error == old(error)
      ensures (reply.HttpReply? && reply.ok && reply.chunks.Some? && reply.interrupted.Some?
               && reply.interrupted.value.name == Some("AbortError")) ==>
        var eff := Effects(CompleteLines(Concat(reply.chunks.value)), parse);
        && messages == StopStreaming(AppendContent(old(messages), assistantId, eff.text), assistantId)
        && error == old(error)
      ensures (reply.HttpReply? && reply.ok && reply.chunks.Some? && reply.interrupted.Some?
               && reply.interrupted.value.name != Some("AbortError")) ==>
        var eff := Effects(CompleteLines(Concat(reply.chunks.value)), parse);
        && messages == Apologise(AppendContent(old(messages), assistantId, eff.text), assistantId, reply.interrupted.value.message)
        && error == Some(StringOr(reply.interrupted.value.message, "请求失败"))
      ensures reply.HttpReply? && reply.ok && reply.chunks.Some? ==>
        tokens.outputTokens == old(tokens).outputTokens + Effects(CompleteLines(Concat(reply.chunks.value)), parse).outputTokens
      ensures !(reply.HttpReply? && reply.ok && reply.chunks.Some?) ==> tokens == old(tokens)
      ensures tokens.inputTokens == old(tokens).inputTokens
    {
      match reply
      case FetchThrew(t) =>
        Fail(assistantId, t);
      case HttpReply(ok, status, text, chunks, interrupted) =>
        if !ok {
          Fail(assistantId, MainAgent.Thrown(Some("Error"), Some("API 请求失败: " + NatToString(status) + " - " + text)));
        } else if chunks.None? {
          Fail(assistantId, MainAgent.Thrown(Some("Error"), Some("无法读取响应")));
        } else {
          ReadBody(assistantId, chunks.value, parse);
          if interrupted.Some? {
            Fail(assistantId, interrupted.value);
          } else {
            messages := StopStreaming(messages, assistantId);
            isStreaming := false;
          }
        }
    }

    /** `handleStop`: every streaming message stops, with no error. */
    method HandleStop()
      modifies this
      ensures messages == StopEvery(old(messages)) && !isStreaming
      ensures input == old(input) && error == old(error) && tokens == old(tokens)
    {
      messages := StopEvery(messages);
      isStreaming := false;
    }
  }
}
