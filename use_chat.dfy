/**
 * The renderer's chat state (src/hooks/use-chat.ts): the message list and its
 * per-message transforms, the agent chunk reducer with its stream-id filter,
 * the send guards, stop, tool approvals and the token totals.
 */
module UseChat {
  import opened Wrappers
  import opened JsString
  import opened Wire
  import MainAgent
  import MainChat

  datatype Role = User | Assistant

  datatype Approval = Pending | Approved | Rejected

  /** A chat message; a missing `isStreaming` is `false`, a missing `toolApprovals` is empty. */
  datatype Message = Message(
    id: string, role: Role, content: string, createdAt: int,
    isStreaming: bool, error: Option<string>, toolApprovals: map<string, Approval>, usage: Option<Usage>)

  /** The integer part of `TokenStats`; the dollar cost is left out. */
  datatype TokenStats = TokenStats(inputTokens: int, outputTokens: int)

  function NewMessage(id: string, role: Role, content: string, now: int, streaming: bool): Message {
    Message(id, role, content, now, streaming, None, map[], None)
  }

  // ---------------------------------------------------------------------------
  // Message-list transforms (`prev.map(...)`)
  // ---------------------------------------------------------------------------

  /** `content += text` on the messages with that id. */
  function AppendContent(ms: seq<Message>, id: string, text: string): (r: seq<Message>)
    ensures |r| == |ms|
    ensures forall k :: 0 <= k < |r| ==> r[k].id == ms[k].id && r[k].isStreaming == ms[k].isStreaming
    ensures forall k :: 0 <= k < |r| ==> if ms[k].id == id then r[k] == ms[k].(content := ms[k].content + text) else r[k] == ms[k]
  {
    seq(|ms|, k requires 0 <= k < |ms| => if ms[k].id == id then ms[k].(content := ms[k].content + text) else ms[k])
  }

  /** Appending nothing changes nothing. */
  lemma AppendNothing(ms: seq<Message>, id: string)
    ensures AppendContent(ms, id, "") == ms
  {
    forall k | 0 <= k < |ms| ensures ms[k].content + "" == ms[k].content { }
  }

  /** Appending twice is appending the concatenation. */
  lemma AppendContentTwice(ms: seq<Message>, id: string, a: string, b: string)
    ensures AppendContent(AppendContent(ms, id, a), id, b) == AppendContent(ms, id, a + b)
  {
    var l := AppendContent(AppendContent(ms, id, a), id, b);
    var r := AppendContent(ms, id, a + b);
    forall k | 0 <= k < |ms| ensures l[k] == r[k] {
      assert ms[k].content + a + b == ms[k].content + (a + b);
    }
  }

  /** Ends streaming on the messages with that id and sets their `error` (cleared for `None`). */
  function FinishMessage(ms: seq<Message>, id: string, error: Option<string>): (r: seq<Message>)
    ensures |r| == |ms|
    ensures forall k :: 0 <= k < |r| ==> r[k].id == ms[k].id && r[k].content == ms[k].content
    ensures forall k :: 0 <= k < |r| && ms[k].id == id ==> !r[k].isStreaming && r[k].error == error
    ensures forall k :: 0 <= k < |r| && ms[k].id != id ==> r[k] == ms[k]
  {
    seq(|ms|, k requires 0 <= k < |ms| => if ms[k].id == id then ms[k].(isStreaming := false, error := error) else ms[k])
  }

  const UserAborted := "User aborted"

  /** `stopGenerating`'s update: every streaming message stops with 'User aborted'. */
  function StopAll(ms: seq<Message>): (r: seq<Message>)
    ensures |r| == |ms|
    ensures forall k :: 0 <= k < |r| ==> !r[k].isStreaming
    ensures forall k :: 0 <= k < |r| && ms[k].isStreaming ==> r[k] == ms[k].(isStreaming := false, error := Some(UserAborted))
    ensures forall k :: 0 <= k < |r| && !ms[k].isStreaming ==> r[k] == ms[k]
  {
    seq(|ms|, k requires 0 <= k < |ms| => if ms[k].isStreaming then ms[k].(isStreaming := false, error := Some(UserAborted)) else ms[k])
  }

  /** Stopping again changes nothing. */
  lemma StopAllIdempotent(ms: seq<Message>)
    ensures StopAll(StopAll(ms)) == StopAll(ms)
  {
  }

  /** `updateToolApproval`: sets `toolApprovals[toolId]` on the messages with that id. */
  function SetToolApproval(ms: seq<Message>, messageId: string, toolId: string, status: Approval): (r: seq<Message>)
    ensures |r| == |ms|
    ensures forall k :: 0 <= k < |r| && ms[k].id != messageId ==> r[k] == ms[k]
    ensures forall k :: 0 <= k < |r| && ms[k].id == messageId ==>
      r[k] == ms[k].(toolApprovals := ms[k].toolApprovals[toolId := status])
  {
    seq(|ms|, k requires 0 <= k < |ms| =>
      if ms[k].id == messageId then ms[k].(toolApprovals := ms[k].toolApprovals[toolId := status]) else ms[k])
  }

  /** The other tools' approvals are kept, and the latest status for a tool wins. */
  lemma ToolApprovalKeepsOthers(ms: seq<Message>, messageId: string, toolId: string, status: Approval, k: nat, other: string)
    requires k < |ms| && ms[k].id == messageId
    ensures var r := SetToolApproval(ms, messageId, toolId, status);
      toolId in r[k].toolApprovals && r[k].toolApprovals[toolId] == status
      && (other != toolId ==> (other in r[k].toolApprovals <==> other in ms[k].toolApprovals))
      && (other != toolId && other in ms[k].toolApprovals ==> r[k].toolApprovals[other] == ms[k].toolApprovals[other])
  {
  }

  lemma ToolApprovalLastWins(ms: seq<Message>, messageId: string, toolId: string, s1: Approval, s2: Approval)
    ensures SetToolApproval(SetToolApproval(ms, messageId, toolId, s1), messageId, toolId, s2) == SetToolApproval(ms, messageId, toolId, s2)
  {
    var l := SetToolApproval(SetToolApproval(ms, messageId, toolId, s1), messageId, toolId, s2);
    var r := SetToolApproval(ms, messageId, toolId, s2);
    forall k | 0 <= k < |ms| ensures l[k] == r[k] {
      if ms[k].id == messageId {
        assert ms[k].toolApprovals[toolId := s1][toolId := s2] == ms[k].toolApprovals[toolId := s2];
      }
    }
  }

  // ---------------------------------------------------------------------------
  // The agent chunk reducer
  // ---------------------------------------------------------------------------

  /** `chunk.streamId && chunk.streamId !== streamId` discards; everything else is applied. */
  predicate Accepts(current: string, c: MainAgent.AgentChunk) {
    !Truthy(c.streamId) || c.streamId.value == current
  }

  /** A chunk is accepted exactly when it has no stream id or the current one. */
  lemma AcceptsExactly(current: string, c: MainAgent.AgentChunk)
    ensures Accepts(current, c) <==> c.streamId.None? || c.streamId == Some("") || c.streamId == Some(current)
  {
  }

  /** JavaScript's `'' + x` for a value that may be `undefined`. */
  function Shown(o: Option<string>): string {
    o.GetOr("undefined")
  }

  const ToolResultShown: nat := 2000

  function ToolRunningMarker(toolName: Option<string>): string {
    "\n\n> \U{2699}\U{FE0F} 正在执行: `" + Shown(toolName) + "`"
  }

  /** The fenced block for a tool result: its first 2000 characters. */
  function ToolResultFence(result: Option<string>): (r: string)
    ensures result.Some? ==> r == "\n```\n" + Take(result.value, ToolResultShown) + "\n```"
    ensures result.Some? ==> |r| <= ToolResultShown + 9
  {
    "\n```\n" + (if result.Some? then Take(result.value, ToolResultShown) else "undefined") + "\n```"
  }

  /** What an accepted chunk does to the messages. */
  function ApplyAgentChunk(ms: seq<Message>, assistantId: string, kind: MainAgent.ChunkKind): (r: seq<Message>)
    ensures |r| == |ms|
    ensures forall k :: 0 <= k < |r| && ms[k].id != assistantId ==> r[k] == ms[k]
    ensures kind.Text? ==> r == AppendContent(ms, assistantId, Shown(kind.text))
    ensures kind.Done? ==> r == FinishMessage(ms, assistantId, None)
    ensures kind.Error? ==> r == FinishMessage(ms, assistantId, Some(kind.error))
    ensures kind.ToolRunning? || kind.ToolResult? ==>
      forall k :: 0 <= k < |r| ==> r[k].isStreaming == ms[k].isStreaming && StartsWith(r[k].content, ms[k].content)
  {
    match kind
    case Text(t) => AppendContent(ms, assistantId, Shown(t))
    case Done => FinishMessage(ms, assistantId, None)
    case Error(e) => FinishMessage(ms, assistantId, Some(e))
    case ToolRunning(name) =>
      var r := AppendContent(ms, assistantId, ToolRunningMarker(name));
      assert forall k :: 0 <= k < |r| ==> r[k].content[..|ms[k].content|] == ms[k].content;
      r
    case ToolResult(_, result) =>
      var r := AppendContent(ms, assistantId, ToolResultFence(result));
      assert forall k :: 0 <= k < |r| ==> r[k].content[..|ms[k].content|] == ms[k].content;
      r
  }

  predicate Ends(kind: MainAgent.ChunkKind) {
    kind.Done? || kind.Error?
  }

  /** The stream a subscribed `onAgentChunk` listener belongs to. */
  datatype Subscription = Subscription(streamId: string, assistantId: string)

  /** What `sendAgentMessage` sends to `startAgent`: the history as (role, content) pairs. */
  type History = seq<(Role, string)>

  function HistoryOf(ms: seq<Message>): (h: History)
    ensures |h| == |ms|
    ensures forall k :: 0 <= k < |h| ==> h[k] == (ms[k].role, ms[k].content)
  {
    seq(|ms|, k requires 0 <= k < |ms| => (ms[k].role, ms[k].content))
  }

  /** `Math.ceil(length / 4)` */
  function EstimateTokens(content: string): (n: nat)
    ensures 4 * n >= |content| && 4 * n < |content| + 4
  {
    (|content| + 3) / 4
  }

  /** Adds a reported usage (`input_tokens || 0`, `output_tokens || 0`). */
  function AddUsage(t: TokenStats, u: Usage): (r: TokenStats)
    ensures r.inputTokens == t.inputTokens + UsageCount(u, "input_tokens")
    ensures r.outputTokens == t.outputTokens + UsageCount(u, "output_tokens")
    ensures (forall key :: key in u ==> u[key] >= 0) ==> r.inputTokens >= t.inputTokens && r.outputTokens >= t.outputTokens
  {
    TokenStats(t.inputTokens + UsageCount(u, "input_tokens"), t.outputTokens + UsageCount(u, "output_tokens"))
  }

  /** The `isStreamingRef` guard: nothing happens for blank content or while a send holds it. */
  predicate AgentSendProceeds(userContent: string, guard: bool) {
    Trim(userContent) != "" && !guard
  }

  const NeedsElectron := "Agent 模式需要 Electron 环境"

  /** The stream id a send generates from the clock. */
  function AgentStreamId(now: nat): (id: string)
    ensures StartsWith(id, "agent-stream-")
  {
    "agent-stream-" + NatToString(now)
  }

  /** A `{text, full}` chunk: the assistant message's content becomes `full`, or gains `text` when `full` is empty. */
  function ShowText(ms: seq<Message>, id: string, text: string, full: string): (r: seq<Message>)
    ensures |r| == |ms|
    ensures forall k :: 0 <= k < |r| && ms[k].id != id ==> r[k] == ms[k]
    ensures forall k :: 0 <= k < |r| && ms[k].id == id ==>
      r[k] == ms[k].(content := if full != "" then full else ms[k].content + text)
  {
    seq(|ms|, k requires 0 <= k < |ms| =>
      if ms[k].id == id then ms[k].(content := if full != "" then full else ms[k].content + text) else ms[k])
  }

  /** A `{done, usage}` chunk: the assistant message stops streaming and records the usage. */
  function MarkDone(ms: seq<Message>, id: string, usage: Option<Usage>): (r: seq<Message>)
    ensures |r| == |ms|
    ensures forall k :: 0 <= k < |r| && ms[k].id != id ==> r[k] == ms[k]
    ensures forall k :: 0 <= k < |r| && ms[k].id == id ==> r[k] == ms[k].(isStreaming := false, usage := usage)
  {
    seq(|ms|, k requires 0 <= k < |ms| => if ms[k].id == id then ms[k].(isStreaming := false, usage := usage) else ms[k])
  }

  /** The user message and the empty streaming assistant message a send appends (ids from the clock). */
  function AgentTurn(ms: seq<Message>, userContent: string, now: nat): (r: seq<Message>)
    ensures |r| == |ms| + 2 && r[..|ms|] == ms
    ensures r[|ms|].role == User && r[|ms|].content == userContent && !r[|ms|].isStreaming
    ensures r[|ms| + 1].role == Assistant && r[|ms| + 1].content == "" && r[|ms| + 1].isStreaming
    ensures r[|ms|].id != r[|ms| + 1].id
  {
    NatToStringSuccDiffers(now);
    ms + [NewMessage(NatToString(now), User, userContent, now, false), NewMessage(NatToString(now + 1), Assistant, "", now, true)]
  }

  /**
   * The state `useChat` keeps: messages, `isStreaming`, the `isStreamingRef`
   * guard, `agentStreamIdRef`, the live `onAgentChunk` listener and the
   * token totals. The `abortControllerRef` of the chat request is
   * left out with the request itself.
   */
  class ChatHook {
    var messages: seq<Message>
    var isStreaming: bool
    var guard: bool
    var agentStreamId: Option<string>
    var listener: Option<Subscription>
    var tokens: TokenStats

    constructor ()
      ensures messages == [] && !isStreaming && !guard && agentStreamId.None? && listener.None?
      ensures tokens == TokenStats(0, 0)
    {
      messages := [];
      isStreaming := false;
      guard := false;
      agentStreamId := None;
      listener := None;
      tokens := TokenStats(0, 0);
    }

    /**
     * `sendAgentMessage` up to `startAgent`: the guards, the user and the
     * streaming assistant message, then either the no-Electron error or a new
     * stream id and listener. Returns the history sent (`None`: nothing sent).
     */
    method SendAgentMessage(userContent: string, now: nat, hasElectron: bool) returns (history: Option<History>)
      modifies this
      ensures !AgentSendProceeds(userContent, old(guard)) ==>
        history.None? && messages == old(messages) && guard == old(guard) && isStreaming == old(isStreaming)
        && agentStreamId == old(agentStreamId) && listener == old(listener)
      ensures AgentSendProceeds(userContent, old(guard)) && !hasElectron ==>
        && history.None?
        && messages == FinishMessage(AgentTurn(old(messages), userContent, now), NatToString(now + 1), Some(NeedsElectron))
        && !guard && !isStreaming && agentStreamId == old(agentStreamId) && listener == old(listener)
      ensures AgentSendProceeds(userContent, old(guard)) && hasElectron ==>
        && history == Some(HistoryOf(old(messages)) + [(User, userContent)])
        && messages == AgentTurn(old(messages), userContent, now)
        && guard && isStreaming
        && agentStreamId == Some(AgentStreamId(now))
        && listener == Some(Subscription(AgentStreamId(now), NatToString(now + 1)))
      ensures tokens == old(tokens)
    {
      history := None;
      if !AgentSendProceeds(userContent, guard) {
        return;
      }
      var snapshot := messages;
      BeginTurn(userContent, now);
      if !hasElectron {
        EndTurn(NatToString(now + 1), Some(NeedsElectron));
        return;
      }
      Subscribe(AgentStreamId(now), NatToString(now + 1));
      history := Some(HistoryOf(snapshot) + [(User, userContent)]);
    }

    /** Sets the guard and `isStreaming` and appends the turn's two messages. */
    method BeginTurn(userContent: string, now: nat)
      modifies this
      ensures messages == AgentTurn(old(messages), userContent, now) && guard && isStreaming
      ensures agentStreamId == old(agentStreamId) && listener == old(listener)
      ensures tokens == old(tokens)
    {
      guard := true;
      isStreaming := true;
      messages := AgentTurn(messages, userContent, now);
    }

    /** Ends the assistant message with an error and releases the guard. */
    method EndTurn(assistantId: string, error: Option<string>)
      modifies this
      ensures messages == FinishMessage(old(messages), assistantId, error) && !guard && !isStreaming
      ensures agentStreamId == old(agentStreamId) && listener == old(listener)
      ensures tokens == old(tokens)
    {
      messages := FinishMessage(messages, assistantId, error);
      guard := false;
      isStreaming := false;
    }

    /** Records the stream id and subscribes the listener for it. */
    method Subscribe(streamId: string, assistantId: string)
      modifies this
      ensures agentStreamId == Some(streamId) && listener == Some(Subscription(streamId, assistantId))
      ensures messages == old(messages) && guard == old(guard) && isStreaming == old(isStreaming)
      ensures tokens == old(tokens)
    {
      agentStreamId := Some(streamId);
      listener := Some(Subscription(streamId, assistantId));
    }

    /**
     * The `onAgentChunk` listener. Chunks for another stream are dropped; a
     * `done` or `error` releases the guard, clears the stream id and unsubscribes.
     */
    method OnAgentChunk(c: MainAgent.AgentChunk)
      modifies this
      ensures old(listener).None? || !Accepts(old(listener).value.streamId, c) ==>
        messages == old(messages) && guard == old(guard) && isStreaming == old(isStreaming)
        && agentStreamId == old(agentStreamId) && listener == old(listener)
      ensures old(listener).Some? && Accepts(old(listener).value.streamId, c) ==>
        messages == ApplyAgentChunk(old(messages), old(listener).value.assistantId, c.kind)
      ensures old(listener).Some? && Accepts(old(listener).value.streamId, c) && Ends(c.kind) ==>
        !guard && !isStreaming && agentStreamId.None? && listener.None?
      ensures old(listener).Some? && Accepts(old(listener).value.streamId, c) && !Ends(c.kind) ==>
        guard == old(guard) && isStreaming == old(isStreaming) && agentStreamId == old(agentStreamId) && listener == old(listener)
      ensures tokens == old(tokens)
    {
      if listener.None? || !Accepts(listener.value.streamId, c) {
        return;
      }
      messages := ApplyAgentChunk(messages, listener.value.assistantId, c.kind);
      if Ends(c.kind) {
        guard := false;
        isStreaming := false;
        agentStreamId := None;
        listener := None;
      }
    }

    /** `startAgent` settled: a rejection ends the assistant message with its message; the listener is removed either way. */
    method AgentStartSettled(assistantId: string, failure: Option<string>)
      modifies this
      ensures listener.None?
      ensures failure.Some? ==> messages == FinishMessage(old(messages), assistantId, failure) && !guard && !isStreaming
      ensures failure.None? ==> messages == old(messages) && guard == old(guard) && isStreaming == old(isStreaming)
      ensures agentStreamId == old(agentStreamId) && tokens == old(tokens)
    {
      if failure.Some? {
        EndTurn(assistantId, failure);
      }
      listener := None;
    }

    /**
     * `stopGenerating`: asks the main process to stop
     * the agent stream (when the API offers `stopAgent`), and ends every
     * streaming message. Returns the id passed to `stopAgent`.
     */
    method StopGenerating(hasStopAgent: bool) returns (stopped: Option<string>)
      modifies this
      ensures stopped == if hasStopAgent && Truthy(old(agentStreamId)) then old(agentStreamId) else None
      ensures agentStreamId == if stopped.Some? then None else old(agentStreamId)
      ensures messages == StopAll(old(messages))
      ensures !isStreaming && !guard
      ensures listener == old(listener) && tokens == old(tokens)
    {
      stopped := None;
      if hasStopAgent && Truthy(agentStreamId) {
        stopped := agentStreamId;
        agentStreamId := None;
      }
      messages := StopAll(messages);
      isStreaming := false;
      guard := false;
    }

    method UpdateToolApproval(messageId: string, toolId: string, status: Approval)
      modifies this
      ensures messages == SetToolApproval(old(messages), messageId, toolId, status)
      ensures isStreaming == old(isStreaming) && guard == old(guard) && agentStreamId == old(agentStreamId)
      ensures listener == old(listener) && tokens == old(tokens)
    {
      messages := SetToolApproval(messages, messageId, toolId, status);
    }

    /** `sendMessage` before the request: the estimated input tokens are added. */
    method CountPrompt(finalContent: string)
      modifies this
      ensures tokens == TokenStats(old(tokens).inputTokens + EstimateTokens(finalContent), old(tokens).outputTokens)
      ensures tokens.inputTokens >= old(tokens).inputTokens
      ensures messages == old(messages) && isStreaming == old(isStreaming) && guard == old(guard)
      ensures agentStreamId == old(agentStreamId) && listener == old(listener)
    {
      tokens := tokens.(inputTokens := tokens.inputTokens + EstimateTokens(finalContent));
    }

    /**
     * The `onChatChunk` listener of `sendMessage`: text replaces the content by
     * `full` (or appends `text`); `done` ends streaming and adds the usage.
     */
    method OnChatChunk(assistantId: string, c: MainChat.ProxyChunk)
      modifies this
      ensures c.TextChunk? && c.text != "" ==> messages == ShowText(old(messages), assistantId, c.text, c.full)
      ensures c.TextChunk? && c.text == "" ==> messages == old(messages)
      ensures c.TextChunk? ==> tokens == old(tokens)
      ensures c.DoneChunk? ==> messages == MarkDone(old(messages), assistantId, c.usage)
      ensures c.DoneChunk? ==> tokens == if c.usage.Some? then AddUsage(old(tokens), c.usage.value) else old(tokens)
      ensures isStreaming == old(isStreaming) && guard == old(guard) && agentStreamId == old(agentStreamId)
      ensures listener == old(listener)
    {
      match c
      case TextChunk(text, full) =>
        if text != "" {
          messages := ShowText(messages, assistantId, text, full);
        }
      case DoneChunk(usage) =>
        messages := MarkDone(messages, assistantId, usage);
        if usage.Some? {
          tokens := AddUsage(tokens, usage.value);
        }
    }
  }

  /**
   * The renderer's view of a main-process `full` value: since every `full` is
   * the text so far, applying the text chunks of one stream to an empty
   * assistant message leaves exactly the streamed text.
   */
  function ApplyTexts(content: string, sent: seq<MainChat.ProxyChunk>): string
    decreases |sent|
  {
    if |sent| == 0 then content
    else
      var prev := ApplyTexts(content, sent[..|sent| - 1]);
      match sent[|sent| - 1]
      case TextChunk(text, full) => if text != "" then (if full != "" then full else prev + text) else prev
      case DoneChunk(_) => prev
  }

  lemma {:induction false} ApplyTextsIsFullText(sent: seq<MainChat.ProxyChunk>)
    requires forall k :: 0 <= k < |sent| ==> sent[k].TextChunk? && sent[k].text != "" && sent[k].full == MainChat.TextsOf(sent[..k + 1])
    ensures ApplyTexts("", sent) == MainChat.TextsOf(sent)
    decreases |sent|
  {
    if |sent| > 0 {
      var n := |sent| - 1;
      assert sent[..n + 1] == sent;
      var prefix := sent[..n];
      forall k | 0 <= k < |prefix| ensures prefix[k].TextChunk? && prefix[k].text != "" && prefix[k].full == MainChat.TextsOf(prefix[..k + 1]) {
        assert prefix[..k + 1] == sent[..k + 1];
      }
      ApplyTextsIsFullText(prefix);
    }
  }
}
