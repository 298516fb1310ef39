/**
 * Agent session control in the main process (electron/main.ts): the
 * `activeAgents` registry of running sessions, the `pendingPermissions`
 * table behind the PreToolUse hook, the mapping from Agent SDK messages to
 * `agent:chunk` messages, and the classification of a session's end.
 */
module MainAgent {
  import opened Wrappers
  import opened JsString
  import Wire

  // ---------------------------------------------------------------------------
  // Chunks sent to the renderer on `agent:chunk`
  // ---------------------------------------------------------------------------

  datatype ChunkKind =
    | Text(text: Option<string>)
    | ToolRunning(toolName: Option<string>)
    | ToolResult(resultTool: string, result: Option<string>)
    | Error(error: string)
    | Done

  /** One `agent:chunk` message; the main process always sets `streamId`. */
  datatype AgentChunk = AgentChunk(streamId: Option<string>, kind: ChunkKind)

  function Tagged(streamId: string, kinds: seq<ChunkKind>): (r: seq<AgentChunk>)
    ensures |r| == |kinds|
    ensures forall k :: 0 <= k < |r| ==> r[k] == AgentChunk(Some(streamId), kinds[k])
  {
    seq(|kinds|, k requires 0 <= k < |kinds| => AgentChunk(Some(streamId), kinds[k]))
  }

  // ---------------------------------------------------------------------------
  // Agent SDK messages
  // ---------------------------------------------------------------------------

  datatype ContentBlock = ContentBlock(blockType: Option<string>, name: Option<string>)

  /** A tool result's `content`: a string, or anything else with its `JSON.stringify` (`None` for `undefined`). */
  datatype ToolResultContent = StringContent(s: string) | JsonContent(stringified: Option<string>)

  /** The SDK messages the session loop distinguishes; `result` is `Some` only when it is a string. */
  datatype SdkMessage =
    | StreamEvent(eventType: Option<string>, deltaType: Option<string>, text: Option<string>)
    | Assistant(content: Option<seq<ContentBlock>>)
    | ToolResultMessage(tool: Option<string>, resultContent: ToolResultContent)
    | ErrorMessage(message: Option<string>)
    | ResultMessage(isError: bool, errorMessage: Option<string>, result: Option<string>)
    | OtherMessage

  const ToolResultLimit: nat := 3000

  /** A `tool_running` chunk for each `tool_use` block, in order. */
  function ToolUses(blocks: seq<ContentBlock>): seq<ChunkKind>
    decreases |blocks|
  {
    if |blocks| == 0 then []
    else (if blocks[0].blockType == Some("tool_use") then [ToolRunning(blocks[0].name)] else []) + ToolUses(blocks[1..])
  }

  /** The number of `tool_use` blocks. */
  function CountToolUse(blocks: seq<ContentBlock>): nat
    decreases |blocks|
  {
    if |blocks| == 0 then 0 else (if blocks[0].blockType == Some("tool_use") then 1 else 0) + CountToolUse(blocks[1..])
  }

  /** One chunk per `tool_use` block, all of them `tool_running`; the blocks' order is kept across any split. */
  lemma {:induction false} ToolUsesInOrder(a: seq<ContentBlock>, b: seq<ContentBlock>)
    ensures ToolUses(a + b) == ToolUses(a) + ToolUses(b)
    ensures |ToolUses(a)| == CountToolUse(a)
    ensures forall k :: 0 <= k < |ToolUses(a)| ==> ToolUses(a)[k].ToolRunning?
    decreases |a|
  {
    if |a| > 0 {
      assert (a + b)[1..] == a[1..] + b;
      ToolUsesInOrder(a[1..], b);
    } else {
      assert a + b == b;
    }
  }

  /** The result text sent for a tool result: `resultText?.slice(0, 3000)`. */
  function ToolResultText(content: ToolResultContent): (r: Option<string>)
    ensures r.Some? ==> |r.value| <= ToolResultLimit
    ensures content.StringContent? ==> r == Some(Take(content.s, ToolResultLimit))
    ensures content.JsonContent? ==> r.Some? == content.stringified.Some?
  {
    match content
    case StringContent(s) => Some(Take(s, ToolResultLimit))
    case JsonContent(j) => if j.Some? then Some(Take(j.value, ToolResultLimit)) else None
  }

  /** The chunks for one SDK message, and the new `hasStreamedText`. */
  function MessageChunks(m: SdkMessage, streamed: bool): (seq<ChunkKind>, bool) {
    match m
    case StreamEvent(t, dt, text) =>
      if t == Some("content_block_delta") && dt == Some("text_delta") then ([Text(text)], true) else ([], streamed)
    case Assistant(content) => (ToolUses(content.GetOr([])), streamed)
    case ToolResultMessage(name, content) => ([ToolResult(Wire.StringOr(name, ""), ToolResultText(content))], streamed)
    case ErrorMessage(msg) => ([Error(Wire.StringOr(msg, "未知错误"))], streamed)
    case ResultMessage(isError, err, result) =>
      if isError then ([Error(Wire.StringOr(err, "Agent 运行失败"))], streamed)
      else ((if !streamed && result.Some? && result.value != "" then [Text(result)] else []) + [Done], streamed)
    case OtherMessage => ([], streamed)
  }

  /** The chunks for a run of SDK messages, starting with the given `hasStreamedText`. */
  function ChunksFrom(ms: seq<SdkMessage>, streamed: bool): seq<ChunkKind>
    decreases |ms|
  {
    if |ms| == 0 then []
    else
      var step := MessageChunks(ms[0], streamed);
      step.0 + ChunksFrom(ms[1..], step.1)
  }

  /** The SDK loop: for each message, send its chunks tagged with the session's stream id. */
  method StreamSdkMessages(streamId: string, ms: seq<SdkMessage>) returns (sent: seq<AgentChunk>)
    ensures sent == Tagged(streamId, ChunksFrom(ms, false))
  {
    var hasStreamedText := false;
    sent := [];
    ghost var kinds: seq<ChunkKind> := [];
    var i := 0;
    while i < |ms|
      invariant 0 <= i <= |ms|
      invariant sent == Tagged(streamId, kinds)
      invariant ChunksFrom(ms, false) == kinds + ChunksFrom(ms[i..], hasStreamedText)
    {
      var step := MessageChunks(ms[i], hasStreamedText);
      ChunksFromUnfold(ms[i..], hasStreamedText);
      assert ms[i..][1..] == ms[i + 1..];
      TaggedAppend(streamId, kinds, step.0);
      sent := sent + Tagged(streamId, step.0);
      kinds := kinds + step.0;
      hasStreamedText := step.1;
      i := i + 1;
    }
    assert ms[i..] == [];
  }

  lemma ChunksFromUnfold(ms: seq<SdkMessage>, streamed: bool)
    requires |ms| > 0
    ensures ChunksFrom(ms, streamed) == MessageChunks(ms[0], streamed).0 + ChunksFrom(ms[1..], MessageChunks(ms[0], streamed).1)
  {
  }

  lemma TaggedAppend(streamId: string, a: seq<ChunkKind>, b: seq<ChunkKind>)
    ensures Tagged(streamId, a + b) == Tagged(streamId, a) + Tagged(streamId, b)
  {
  }

  /** The number of `done` chunks. */
  function CountDone(cs: seq<ChunkKind>): nat
    decreases |cs|
  {
    if |cs| == 0 then 0 else (if cs[0].Done? then 1 else 0) + CountDone(cs[1..])
  }

  /** The number of successful `result` messages. */
  function CountSuccess(ms: seq<SdkMessage>): nat
    decreases |ms|
  {
    if |ms| == 0 then 0 else (if ms[0].ResultMessage? && !ms[0].isError then 1 else 0) + CountSuccess(ms[1..])
  }

  lemma {:induction false} CountDoneAppend(a: seq<ChunkKind>, b: seq<ChunkKind>)
    ensures CountDone(a + b) == CountDone(a) + CountDone(b)
    decreases |a|
  {
    if |a| > 0 {
      assert (a + b)[1..] == a[1..] + b;
      CountDoneAppend(a[1..], b);
    } else {
      assert a + b == a + b;
      assert a + b == b;
    }
  }

  lemma {:induction false} ToolUsesHaveNoDone(blocks: seq<ContentBlock>)
    ensures CountDone(ToolUses(blocks)) == 0
    decreases |blocks|
  {
    if |blocks| > 0 {
      var head: seq<ChunkKind> := if blocks[0].blockType == Some("tool_use") then [ToolRunning(blocks[0].name)] else [];
      ToolUsesHaveNoDone(blocks[1..]);
      CountDoneAppend(head, ToolUses(blocks[1..]));
    }
  }

  /** The `done` chunks one message yields: one for a successful `result`, none otherwise. */
  lemma MessageDoneCount(m: SdkMessage, streamed: bool)
    ensures CountDone(MessageChunks(m, streamed).0) == if m.ResultMessage? && !m.isError then 1 else 0
  {
    if m.Assistant? {
      ToolUsesHaveNoDone(m.content.GetOr([]));
    } else if m.ResultMessage? && !m.isError {
      var pre: seq<ChunkKind> := if !streamed && m.result.Some? && m.result.value != "" then [Text(m.result)] else [];
      CountDoneAppend(pre, [Done]);
    }
  }

  /** Each successful `result` message, and nothing else, yields one `done` chunk. */
  lemma {:induction false} DonePerSuccessfulResult(ms: seq<SdkMessage>, streamed: bool)
    ensures CountDone(ChunksFrom(ms, streamed)) == CountSuccess(ms)
    decreases |ms|
  {
    if |ms| > 0 {
      var step := MessageChunks(ms[0], streamed);
      DonePerSuccessfulResult(ms[1..], step.1);
      CountDoneAppend(step.0, ChunksFrom(ms[1..], step.1));
      MessageDoneCount(ms[0], streamed);
    }
  }

  /** A successful `result` repeats its text only when nothing was streamed, and always ends with `done`. */
  lemma SuccessfulResultChunks(err: Option<string>, result: Option<string>, streamed: bool)
    ensures var (cs, s') := MessageChunks(ResultMessage(false, err, result), streamed);
      && s' == streamed
      && |cs| > 0 && cs[|cs| - 1] == Done
      && (Text(result) in cs <==> !streamed && result.Some? && result.value != "")
  {
  }

  /**
   * `hasStreamedText` is set by the first text delta and never cleared: after
   * one, a successful `result` sends only `done`, not its text again.
   */
  lemma {:induction false} ChunksAfterStreamed(ms: seq<SdkMessage>, streamed: bool, k: nat, last: SdkMessage)
    requires k < |ms| && ms[k].StreamEvent? && ms[k].eventType == Some("content_block_delta") && ms[k].deltaType == Some("text_delta")
    requires last.ResultMessage? && !last.isError
    ensures ChunksFrom(ms + [last], streamed) == ChunksFrom(ms, streamed) + [Done]
    decreases |ms|
  {
    var step := MessageChunks(ms[0], streamed);
    assert (ms + [last])[0] == ms[0];
    assert (ms + [last])[1..] == ms[1..] + [last];
    if k == 0 {
      assert step.1;
      AfterStreamed(ms[1..], last);
    } else {
      ChunksAfterStreamed(ms[1..], step.1, k - 1, last);
    }
  }

  lemma {:induction false} AfterStreamed(ms: seq<SdkMessage>, last: SdkMessage)
    requires last.ResultMessage? && !last.isError
    ensures ChunksFrom(ms + [last], true) == ChunksFrom(ms, true) + [Done]
    decreases |ms|
  {
    if |ms| == 0 {
      assert ms + [last] == [last];
    } else {
      assert (ms + [last])[0] == ms[0];
      assert (ms + [last])[1..] == ms[1..] + [last];
      assert MessageChunks(ms[0], true).1;
      AfterStreamed(ms[1..], last);
    }
  }

  // ---------------------------------------------------------------------------
  // Ending a session
  // ---------------------------------------------------------------------------

  /** An error thrown out of the SDK loop: its `name` and `message`. */
  datatype Thrown = Thrown(name: Option<string>, message: Option<string>)

  datatype SessionResult = SessionSuccess(aborted: bool) | SessionError(error: Option<string>) | AlreadyRunning

  /** The user cancelled: an `AbortError`, or a message that mentions 'aborted'. */
  predicate IsAbort(t: Thrown) {
    t.name == Some("AbortError") || (Wire.Truthy(t.message) && Contains(t.message.value, "aborted"))
  }

  /** The chunks sent and the value returned once the loop ends, normally or by a throw. */
  function EndOfSession(thrown: Option<Thrown>): (r: (seq<ChunkKind>, SessionResult))
    ensures thrown.None? ==> r == ([Done], SessionSuccess(false))
    ensures thrown.Some? && IsAbort(thrown.value) ==> r == ([Done], SessionSuccess(true))
    ensures thrown.Some? && !IsAbort(thrown.value) ==>
      && r.1 == SessionError(thrown.value.message)
      && r.0 == [Error("Agent 错误: " + (if thrown.value.message.Some? then thrown.value.message.value else "undefined"))]
  {
    match thrown
    case None => ([Done], SessionSuccess(false))
    case Some(t) =>
      if IsAbort(t) then ([Done], SessionSuccess(true))
      else
        var text := "Agent 错误: " + (if t.message.Some? then t.message.value else "undefined");
        ([Error(text)], SessionError(t.message))
  }

  // ---------------------------------------------------------------------------
  // The permission hook's decision
  // ---------------------------------------------------------------------------

  /** The `{behavior, message}` that settles a permission request. */
  datatype Payload = Payload(behavior: string, message: Option<string>)

  datatype HookDecision = Allow | Deny(reason: string)

  const TimeoutPayload := Payload("deny", Some("权限请求超时"))

  /** What the hook returns to the SDK once the request is settled. */
  function Decide(p: Payload): (d: HookDecision)
    ensures d.Allow? <==> p.behavior == "allow"
    ensures d.Deny? && Wire.Truthy(p.message) ==> d.reason == p.message.value
    ensures d.Deny? && !Wire.Truthy(p.message) ==> d.reason == "用户拒绝了此操作"
  {
    if p.behavior == "allow" then Allow else Deny(Wire.StringOr(p.message, "用户拒绝了此操作"))
  }

  /** A request that timed out is denied with the timeout message. */
  lemma TimeoutDenies()
    ensures Decide(TimeoutPayload) == Deny("权限请求超时")
  {
  }

  /** Permission request ids are `perm-<n>` from a counter (the source uses the clock and a random suffix). */
  function RequestId(n: nat): string {
    "perm-" + NatToString(n)
  }

  lemma RequestIdInjective(n: nat, m: nat)
    requires RequestId(n) == RequestId(m)
    ensures n == m
  {
    assert NatToString(n) == RequestId(n)[5..];
    assert NatToString(m) == RequestId(m)[5..];
    NatToStringInjective(n, m);
  }

  function Issued(n: nat): set<string> {
    set k | 0 <= k < n :: RequestId(k)
  }

  // ---------------------------------------------------------------------------
  // The main process's session state
  // ---------------------------------------------------------------------------

  /** The id `api:agent` runs under: the one it was given, or `agent-<now>` when that is empty. */
  function SessionId(streamId: string, now: nat): (id: string)
    ensures streamId != "" ==> id == streamId
    ensures streamId == "" ==> StartsWith(id, "agent-") && |id| > 6 && IsDigit(id[6])
  {
    if streamId == "" then "agent-" + NatToString(now) else streamId
  }

  /**
   * `activeAgents` maps a stream id to its abort controller (here a number
   * issued from `nextController`); `aborted` holds the controllers whose
   * `abort()` was called. `pending` holds the permission requests still
   * waiting and `settled` the payload each settled request was resolved with.
   */
  class AgentHost {
    var activeAgents: map<string, nat>
    var aborted: set<nat>
    var nextController: nat
    var pending: set<string>
    var settled: map<string, Payload>
    var nextRequest: nat

    ghost predicate Valid()
      reads this
    {
      && (forall id :: id in activeAgents ==> activeAgents[id] < nextController)
      && pending !! settled.Keys
      && pending + settled.Keys <= Issued(nextRequest)
    }

    constructor ()
      ensures Valid()
      ensures activeAgents == map[] && aborted == {} && pending == {} && settled == map[]
    {
      activeAgents, aborted, nextController := map[], {}, 0;
      pending, settled, nextRequest := {}, map[], 0;
    }

    /**
     * The start of `api:agent`: an empty id becomes `agent-<now>`; an id already
     * registered is refused and nothing changes; otherwise a new controller is
     * registered under it.
     */
    method Start(streamId: string, now: nat) returns (id: string, started: bool)
      requires Valid()
      modifies this
      ensures Valid()
      ensures id == SessionId(streamId, now)
      ensures started <==> id !in old(activeAgents)
      ensures started ==> activeAgents == old(activeAgents)[id := old(nextController)] && nextController == old(nextController) + 1
      ensures !started ==> activeAgents == old(activeAgents) && nextController == old(nextController)
      ensures aborted == old(aborted) && pending == old(pending) && settled == old(settled) && nextRequest == old(nextRequest)
    {
      id := SessionId(streamId, now);
      if id in activeAgents {
        started := false;
        return;
      }
      activeAgents := activeAgents[id := nextController];
      nextController := nextController + 1;
      started := true;
    }

    /** `api:agent-stop`: abort and unregister a running session; an unknown id changes nothing. */
    method Stop(streamId: string) returns (success: bool, message: Option<string>)
      requires Valid()
      modifies this
      ensures Valid()
      ensures success <==> streamId in old(activeAgents)
      ensures success ==> (activeAgents == old(activeAgents) - {streamId}
                           && aborted == old(aborted) + {old(activeAgents)[streamId]} && message == None)
      ensures !success ==> (activeAgents == old(activeAgents) && aborted == old(aborted)
                            && message == Some("No active agent session"))
      ensures nextController == old(nextController) && pending == old(pending) && settled == old(settled) && nextRequest == old(nextRequest)
    {
      if streamId in activeAgents {
        aborted := aborted + {activeAgents[streamId]};
        activeAgents := activeAgents - {streamId};
        return true, None;
      }
      return false, Some("No active agent session");
    }

    /** The `finally` of `api:agent`. */
    method Finish(streamId: string)
      requires Valid()
      modifies this
      ensures Valid()
      ensures activeAgents == old(activeAgents) - {streamId}
      ensures aborted == old(aborted) && nextController == old(nextController)
      ensures pending == old(pending) && settled == old(settled) && nextRequest == old(nextRequest)
    {
      activeAgents := activeAgents - {streamId};
    }

    /**
     * The PreToolUse hook up to its wait: a fresh request id, and either an
     * immediate denial because sending the request failed (nothing is
     * registered) or a new pending entry.
     */
    method RequestPermission(sendOk: bool) returns (requestId: string, immediate: Option<HookDecision>)
      requires Valid()
      modifies this
      ensures Valid()
      ensures requestId !in old(pending) && requestId !in old(settled)
      ensures !sendOk ==> immediate == Some(Deny("IPC Exception")) && pending == old(pending)
      ensures sendOk ==> immediate == None && pending == old(pending) + {requestId}
      ensures settled == old(settled) && nextRequest == old(nextRequest) + 1
      ensures activeAgents == old(activeAgents) && aborted == old(aborted) && nextController == old(nextController)
    {
      requestId := RequestId(nextRequest);
      forall r | r in Issued(nextRequest) ensures r != requestId {
        var k :| 0 <= k < nextRequest && r == RequestId(k);
        if r == requestId { RequestIdInjective(k, nextRequest); }
      }
      assert Issued(nextRequest) <= Issued(nextRequest + 1);
      nextRequest := nextRequest + 1;
      if !sendOk {
        immediate := Some(Deny("IPC Exception"));
        return;
      }
      pending := pending + {requestId};
      immediate := None;
    }

    /** Settles a waiting request with `payload`; a request not waiting is left alone. */
    method Settle(requestId: string, payload: Payload)
      requires Valid()
      modifies this
      ensures Valid()
      ensures requestId in old(pending) ==> pending == old(pending) - {requestId} && settled == old(settled)[requestId := payload]
      ensures requestId !in old(pending) ==> pending == old(pending) && settled == old(settled)
      ensures forall r :: r in old(settled) ==> r in settled && settled[r] == old(settled)[r]
      ensures activeAgents == old(activeAgents) && aborted == old(aborted) && nextController == old(nextController) && nextRequest == old(nextRequest)
    {
      if requestId in pending {
        pending := pending - {requestId};
        settled := settled[requestId := payload];
      }
    }

    /** `api:agent-permission`: the UI's answer resolves the request if it is still waiting. */
    method Respond(requestId: string, payload: Payload)
      requires Valid()
      modifies this
      ensures Valid()
      ensures requestId in old(pending) ==> pending == old(pending) - {requestId} && settled == old(settled)[requestId := payload]
      ensures requestId !in old(pending) ==> pending == old(pending) && settled == old(settled)
      ensures forall r :: r in old(settled) ==> r in settled && settled[r] == old(settled)[r]
      ensures activeAgents == old(activeAgents) && aborted == old(aborted) && nextController == old(nextController) && nextRequest == old(nextRequest)
    {
      Settle(requestId, payload);
    }

    /** The 5-minute timer: denies the request with the timeout message if it is still waiting. */
    method Timeout(requestId: string)
      requires Valid()
      modifies this
      ensures Valid()
      ensures requestId in old(pending) ==> pending == old(pending) - {requestId} && settled == old(settled)[requestId := TimeoutPayload]
      ensures requestId !in old(pending) ==> pending == old(pending) && settled == old(settled)
      ensures forall r :: r in old(settled) ==> r in settled && settled[r] == old(settled)[r]
      ensures activeAgents == old(activeAgents) && aborted == old(aborted) && nextController == old(nextController) && nextRequest == old(nextRequest)
    {
      Settle(requestId, TimeoutPayload);
    }

    /**
     * `api:agent` from start to `finally`: the SDK yields `ms` and then either
     * finishes or throws `thrown`. A refused start sends nothing and changes
     * nothing; otherwise the id is registered for the run and unregistered at
     * the end, whichever way it ended.
     */
    method RunSession(streamId: string, now: nat, ms: seq<SdkMessage>, thrown: Option<Thrown>)
      returns (id: string, sent: seq<AgentChunk>, result: SessionResult)
      requires Valid()
      modifies this
      ensures Valid()
      ensures id == SessionId(streamId, now)
      ensures id in old(activeAgents) ==> result == AlreadyRunning && sent == [] && activeAgents == old(activeAgents)
      ensures id !in old(activeAgents) ==>
        && activeAgents == old(activeAgents)
        && sent == Tagged(id, ChunksFrom(ms, false) + EndOfSession(thrown).0)
        && result == EndOfSession(thrown).1
      ensures aborted == old(aborted) && pending == old(pending) && settled == old(settled)
    {
      var started;
      id, started := Start(streamId, now);
      if !started {
        return id, [], AlreadyRunning;
      }
      sent := StreamSdkMessages(id, ms);
      var (end, r) := EndOfSession(thrown);
      TaggedAppend(id, ChunksFrom(ms, false), end);
      sent := sent + Tagged(id, end);
      result := r;
      Finish(id);
      assert activeAgents == old(activeAgents) by {
        assert old(activeAgents)[id := old(nextController)] - {id} == old(activeAgents);
      }
    }
  }

  /** A session that ends normally sends one `done` per successful `result` plus the final one. */
  lemma SuccessfulSessionDoneCount(ms: seq<SdkMessage>)
    ensures CountDone(ChunksFrom(ms, false) + EndOfSession(None).0) == CountSuccess(ms) + 1
  {
    DonePerSuccessfulResult(ms, false);
    CountDoneAppend(ChunksFrom(ms, false), [Done]);
  }
}
