# CodeNova core, modelled in Dafny

CodeNova is an Electron desktop chat client for Claude-compatible APIs.
Its main process streams chat completions, runs Agent SDK sessions with a
permission hook, and relays both to the renderer over IPC. The renderer
is a React application: chat and agent panels, a file tree, a sidebar of
conversations, slash commands and a command palette, and hooks that keep
skills, MCP servers, API settings and the theme in `localStorage`.

This project models the logic of that core, one Dafny module per source
file:

- **Stream decoders.** These are the buffered `api:chat` reader in the main
  process, the buffered reader of the chat panel and the unbuffered
  `chatStream` of the API client. Each is a loop over already-decoded string
  chunks. The two buffered readers are proved against the lines of the
  concatenated body; `chatStream` is proved against the lines of each chunk
  split on its own, and a corrected buffered version beside it against the
  lines of the whole body.
- **Agent session control.** This covers the registry of running sessions,
  the table of pending permission requests (each settled at most once, by
  the user or by the time-out), and the mapping from SDK messages to UI chunks.
- **Provider dialects.** Provider detection, headers, endpoints, request
  bodies, response normalisation and error messages of the API client.
- **Renderer reducers and handlers.** The agent-chunk reducer, stop and
  tool approval of the chat hook; attachments, routing and permission
  requests of the chat view; turn finalisation of the chat panel.
- **Text parsers and filters.** Extraction of `<minimax:tool_call>` blocks,
  slash-command parsing, and the slash-menu and palette filters.
- **Trees.** Hidden-name filtering, directories-first ordering, expand
  toggles by path and the recursive search filter of the file tree and
  the file panel.
- **Keyed collections.** Skills, conversations (hook and storage), MCP
  servers and API settings.
- **Small state machines.** The theme migration and cycle, the palette
  selection index, the resize clamp and the rename editor.

Shared modules: `Wrappers` (`Option`), `JsString` (the JavaScript string
operations the code uses: `startsWith`, `includes`, `trim`, ASCII
`toLowerCase`, `split`, `join`, `slice`, `indexOf`, and number-to-string),
`Wire` (the JSON events of the streaming protocols, with `JSON.parse`
taken as a parameter) and `LineSplit` (splitting a body into lines with
a carry buffer).

State that the source changes in place — React state, refs, `Map`s and
`localStorage` — is a Dafny class whose methods state the whole new state.
Pure transforms are functions, and what the source promises about them is
proved in lemmas.

## Model

| member | source | states |
|---|---|---|
| MainChat.EnvOr | electron/main.ts:354-356 | the value is the fallback, or the variable's own value when it is set and not empty |
| MainChat.ResolveConfig | electron/main.ts:343-362 | The settings file is read only when the key or base URL is missing, and an unreadable file is the only failure. Given values always win. With key and base URL given and no model, the model is MiniMax-M2.5. The model and base URL are never empty. Streaming is on unless `stream` is `false`. |
| MainChat.OverridesNeedNoConfigFile | electron/main.ts:348 | With both key and base URL given, the result does not depend on the settings file. |
| MainChat.ConfigFileFallbacks | electron/main.ts:348-358 | Whenever the settings file is read, each missing value follows its own chain of `env` keys. The key goes from ANTHROPIC_AUTH_TOKEN to ANTHROPIC_API_KEY to ''. The base URL goes from ANTHROPIC_BASE_URL to `https://api.anthropic.com`. The model goes from ANTHROPIC_MODEL to ANTHROPIC_DEFAULT_SONNET_MODEL to MiniMax-M2.5. |
| MainChat.ChatRequest | electron/main.ts:366-385 | The request goes to `<baseUrl>/v1/messages` with exactly the Content-Type, `x-api-key` and `anthropic-version` headers, `max_tokens` 4096, and the messages unchanged. |
| MainChat.CompleteResponse | electron/main.ts:395-410 | Success exactly when the status is 2xx and the body parses; the content is the first text block's text or ''. A failure carries `error.message` when present, otherwise a message containing the raw body. |
| MainChat.WithInputTokens | electron/main.ts:447-449 | `message_start` keeps every other usage field and sets only `input_tokens`. |
| MainChat.LineStepShape | electron/main.ts:429-442 | One line either sends nothing or sends exactly one non-empty text chunk; that chunk's `full` is the text so far. |
| MainChat.DecodeWellFormed | electron/main.ts:437-441 | After any run of lines, `fullText` is the concatenation of the texts sent, and each chunk's `full` is the text up to and including it. |
| MainChat.HandleLine | electron/main.ts:429-452 | The loop body on one line equals the specification function `LineStep`. |
| MainChat.DecodeReads | electron/main.ts:416-453 | The reads of the loop leave the text, the usage and the chunks sent equal to the decoding of the complete lines of the body read so far; the unterminated tail is carried. |
| MainChat.ReadStream | electron/main.ts:416-458 | The chunks sent, the text and the usage are the decoding of the complete lines of the concatenated body, followed by one `done`. They do not depend on where the body was split into reads. |
| MainChat.ExactlyOneDone | electron/main.ts:457 | Exactly one `done` chunk is sent, last; every earlier chunk is text. |
| MainChat.FullIsTextSoFar | electron/main.ts:438-440 | Each `{text, full}` chunk's `full` is everything sent up to it. |
| MainChat.SkippedLines | electron/main.ts:430-452 | Non-`data: ` lines, a trimmed `[DONE]` and unparsable payloads leave the state unchanged. |
| MainChat.MessageDeltaReplacesUsage | electron/main.ts:443-445 | A `message_delta` with usage replaces the usage; it is not summed. |
| MainChat.FinalUnterminatedLineIgnored | electron/main.ts:426-427 | A final line with no trailing '\n' is never decoded. |
| MainChat.ApiChat | electron/main.ts:337-463 | An unreadable config and a network error send nothing and return their messages. An endpoint that `new URL` rejects (a base URL without a scheme) makes the handler itself reject, before the `try`, and nothing is sent; this is the only way it rejects. Non-streaming and non-2xx responses go through `CompleteResponse` and send nothing; a failed body read there is a network error. A streamed reply with no reader fails with '流式读取失败'. A streamed success sends the chunks of `ReadStream` and returns the decoded text and usage. A read that rejects mid-stream returns its network error with the text chunks decoded so far already sent and no `done`. |
| MainAgent.Tagged | electron/main.ts:649-698 | Every chunk carries the session's stream id, in order. |
| MainAgent.ToolUsesInOrder | electron/main.ts:653-658 | Each `tool_use` block yields one `tool_running` chunk, in block order, and no other chunk. |
| MainAgent.ToolResultText | electron/main.ts:660-670 | A tool result's text is at most 3000 characters: a string content is cut to 3000, and other content is stringified and then cut. |
| MainAgent.StreamSdkMessages | electron/main.ts:639-687 | The loop sends exactly the chunks of the specification function `ChunksFrom`, starting with `hasStreamedText` false, each tagged with the stream id. |
| MainAgent.MessageDoneCount | electron/main.ts:674-685 | A message yields one `done` chunk exactly when it is a successful `result`. |
| MainAgent.DonePerSuccessfulResult | electron/main.ts:684 | Over a run of SDK messages, the `done` chunks equal the successful `result` messages in number. |
| MainAgent.SuccessfulResultChunks | electron/main.ts:679-685 | A successful `result` ends with `done`. It sends its text first exactly when nothing was streamed and the text is a non-empty string. |
| MainAgent.ChunksAfterStreamed | electron/main.ts:645-684 | Once a text delta was streamed, a later successful `result` sends only `done`. |
| MainAgent.AfterStreamed | electron/main.ts:681 | With `hasStreamedText` set, a trailing successful `result` adds exactly one `done`. |
| MainAgent.EndOfSession | electron/main.ts:689-699 | A normal end sends `done` and returns success. An `AbortError`, or a message containing 'aborted', sends `done` and returns aborted. Any other error sends exactly one `error` chunk, 'Agent 错误: ' followed by its message ('undefined' when it has none), and returns its message. |
| MainAgent.Decide | electron/main.ts:594-598 | `allow` permits. Anything else denies with the payload message, or '用户拒绝了此操作' when that is empty. |
| MainAgent.TimeoutDenies | electron/main.ts:583-589 | A timed-out request is denied with '权限请求超时'. |
| MainAgent.RequestIdInjective | electron/main.ts:566 | Distinct counter values give distinct request ids. |
| MainAgent.SessionId | electron/main.ts:507-509 | A given id is kept; an empty id becomes `agent-<digits>`. |
| MainAgent.AgentHost.constructor | electron/main.ts:471-479 | Both maps start empty. |
| MainAgent.AgentHost.Start | electron/main.ts:507-518 | An id already registered is refused and nothing changes. Otherwise a fresh controller is registered under the id. |
| MainAgent.AgentHost.Stop | electron/main.ts:493-502 | A registered id has its controller aborted, is removed, and the call succeeds. An unknown id fails with 'No active agent session' and changes nothing. |
| MainAgent.AgentHost.Finish | electron/main.ts:700-702 | The `finally` removes the id and nothing else. |
| MainAgent.AgentHost.RequestPermission | electron/main.ts:566-582 | Each request gets a fresh id. When the send fails, the hook denies with 'IPC Exception' and registers nothing. Otherwise exactly that id becomes pending. |
| MainAgent.AgentHost.Settle | electron/main.ts:483-487 | A pending request is removed and settled once. A request that is not pending is left alone, and earlier settlements never change (also lines 584-587). |
| MainAgent.AgentHost.Respond | electron/main.ts:481-491 | The UI's answer settles a pending request; an unknown or already settled id is a no-op. |
| MainAgent.AgentHost.Timeout | electron/main.ts:583-589 | The timer denies with the timeout payload only if the request is still pending; otherwise it does nothing. |
| MainAgent.AgentHost.RunSession | electron/main.ts:504-703 | A duplicate start returns 'already running', sends nothing and changes nothing. Otherwise the session's chunks are the message chunks followed by the end-of-session chunks, and the registry is back to its old contents on every exit path. |
| MainAgent.SuccessfulSessionDoneCount | electron/main.ts:684-689 | A normal session sends one `done` per successful `result`, plus one more at the end, so a successful session sends `done` twice. |
| Wire.FirstTextBlock | electron/main.ts:403 | `content.find(c => c.type === 'text')` finds the first text block, or none when no block is text. |
| LineSplit.CompleteLinesAndCarry | electron/main.ts:426-427 | The complete lines and the carried tail, joined with '\n', give back the buffer. |
| LineSplit.LinesHaveNoNewline | electron/main.ts:426 | No line and no carry contains '\n'. |
| LineSplit.CarryStep | electron/main.ts:425-427 | Appending a chunk to the carried tail completes exactly the new lines of the longer body and leaves the longer body's carry. This step makes the buffered readers independent of how the body is split. |
| LineSplit.UnterminatedTailIgnored | src/components/chat/chat.tsx:192-194 | Text after the last '\n' is not a complete line; it stays in the buffer. |
| LineSplit.ConcatAppend | src/components/chat/chat.tsx:190 | Reading two runs of chunks reads their bodies one after the other. |
| ClaudeApi.GetProviderType | src/lib/claude-api.ts:59-63 | The result is 'anthropic' exactly when the base URL lacks 'minimax' and the model starts with 'claude-'; otherwise it is 'thirdparty'. |
| ClaudeApi.BuildHeaders | src/lib/claude-api.ts:66-87 | `Content-Type` is always set, and exactly one of `x-api-key` and `Authorization` is set. `x-api-key` comes with `anthropic-version: 2023-06-01`. `Authorization` is `Bearer <key>`. |
| ClaudeApi.HeadersFollowCompatibility | src/lib/claude-api.ts:160-172 | As `chat` calls it, `x-api-key` is sent exactly for Anthropic-compatible requests and Bearer for all others. |
| ClaudeApi.BodyMessages | src/lib/claude-api.ts:99-102 | The body's messages keep their order, role and content. |
| ClaudeApi.BuildRequestBody | src/lib/claude-api.ts:96-123 | `stream` is always false and messages are unchanged. `max_tokens` defaults to 4096, also for 0. Temperature defaults to 1, or 0.7 for third-party models whose name contains 'MiniMax'. |
| ClaudeApi.GetEndpoint | src/lib/claude-api.ts:126-143 | `/v1/messages` exactly for the 'anthropic' provider or a URL containing both 'minimax' and '/anthropic'; every other case gets `/v1/chat/completions`. |
| ClaudeApi.EndpointDisagreesWithCompatibility | src/lib/claude-api.ts:126-163 | On the Moonshot '/anthropic' base URL, the request is treated as Anthropic-compatible for headers but is posted to `/v1/chat/completions`. |
| ClaudeApi.CompatibleEndpoint | src/lib/claude-api.ts:160-163 | The corrected endpoint: `/v1/messages` exactly for Anthropic-compatible requests. |
| ClaudeApi.CompatibleEndpointMatchesHeaders | src/lib/claude-api.ts:66-87 | With the corrected endpoint, a request carries `x-api-key` exactly when it goes to `/v1/messages` (also lines 160-163). |
| ClaudeApi.CompatibleEndpointDiffers | src/lib/claude-api.ts:126-143 | The corrected endpoint differs from `getEndpoint` exactly on compatible non-Anthropic URLs that are not MiniMax '/anthropic' URLs. |
| ClaudeApi.ErrorMessage | src/lib/claude-api.ts:188-226 | The message is `error.message`, else `message`, else 'API request failed: <status>'. |
| ClaudeApi.FormatResponse | src/lib/claude-api.ts:236-266 | Anthropic-shaped data passes through: id, type, role, content, model and stop reason are the data's own, and usage is `input_tokens`/`output_tokens` with missing counts as 0. OpenAI-shaped data gives type 'message', one text block from `choices[0].message.content` ('' if absent), defaults for role, stop reason, id and model, and `prompt_tokens`/`completion_tokens` with missing counts as 0. |
| ClaudeApi.ChatModel | src/lib/claude-api.ts:147 | The model is the option, else the settings' default, else 'claude-sonnet-4-20250514'; it is never empty. |
| ClaudeApi.Chat | src/lib/claude-api.ts:145-233 | An empty key or base URL fails before any request. A non-2xx status fails with `ErrorMessage` and the status, and a 2xx body that is not JSON with `SyntaxError`. Otherwise the call succeeds: on the IPC path a compatible reply keeps its content, id, model, stop reason and usage with the 'proxy', 'end_turn' and zero defaults; every other reply is `FormatResponse` of the body. |
| ClaudeApi.ChatRequest | src/lib/claude-api.ts:159-172 | As written, the request goes to `getEndpoint`: `/v1/messages` exactly for the 'anthropic' provider or a MiniMax '/anthropic' URL. The headers carry `x-api-key` exactly when the request is Anthropic-compatible. The model is the chosen one, messages are unchanged and `stream` is false. |
| ClaudeApi.ChatRequestFixed | src/lib/claude-api.ts:159-172 | The corrected request keeps the headers and body and goes to `/v1/messages` exactly when it is Anthropic-compatible, so `x-api-key` goes with `/v1/messages` and only with it. |
| ClaudeApi.ChatRequestMisroutes | src/lib/claude-api.ts:126-143 | On the moonshot '/anthropic' base URL, the request as written carries `x-api-key` but goes to `/v1/chat/completions`; the corrected request goes to `/v1/messages`. |
| ClaudeApi.FullContentIsEmitted | src/lib/claude-api.ts:376-379 | In every read loop, `fullContent` equals the concatenation of the strings passed to `onChunk` (also lines 404-408, 431-435). |
| ClaudeApi.MiniMaxEmitsNonEmpty | src/lib/claude-api.ts:404-408 | The MiniMax loop passes only non-empty strings to `onChunk`. |
| ClaudeApi.AnthropicUsageReplaced | src/lib/claude-api.ts:380-382 | A `message_delta` with usage replaces the usage; it is not summed. |
| ClaudeApi.DoneSkipped | src/lib/claude-api.ts:372 | `[DONE]`, and 'null' for MiniMax, change nothing (also lines 400, 427). |
| ClaudeApi.ReadUnbuffered | src/lib/claude-api.ts:362-388 | The loop as written decodes the lines of each chunk split on its own, with no carry-over. |
| ClaudeApi.ReadComplete | src/lib/claude-api.ts:362-367 | With a carry-over buffer, the reads decode exactly the complete lines of the body so far and keep its unterminated tail. |
| ClaudeApi.UnbufferedDependsOnSplit | src/lib/claude-api.ts:366-367 | The same body read whole or split after `data: ` gives "Hi" and "" respectively. |
| ClaudeApi.StreamEach | src/lib/claude-api.ts:369-387 | The inner `for` loop equals the specification function `StreamLines`. |
| ClaudeApi.ReadBuffered | src/lib/claude-api.ts:354-445 | The corrected loop decodes the lines of the whole concatenated body, including a final unterminated line. |
| ClaudeApi.BufferedSplitIndependent | src/lib/claude-api.ts:366-367 | Two chunkings of the same body give the same result in the corrected loop. |
| ClaudeApi.BufferedAgreesOnOneChunk | src/lib/claude-api.ts:366-367 | On a single-chunk body, the loop as written and the corrected loop see the same lines. |
| ClaudeApi.StreamResponse | src/lib/claude-api.ts:447-455 | The streamed response's single text block is `fullContent`, its id is `msg_<now>`, its model the requested one, its role 'assistant' and its stop reason 'end_turn'. The usage is zero when no `message_delta` carried one, and otherwise is read from the wire object the last `message_delta` carried. |
| ClaudeApi.Settled | src/lib/claude-api.ts:268-352 | No fetch body is read exactly when key, base URL, 2xx status, `fetch` and a body are all there. Otherwise the outcome is the preflight error, the status error, 'No response body', the `SyntaxError` of a non-JSON proxy reply, or the proxy's one string and response. Every error emits nothing (also lines 145-157). |
| ClaudeApi.ProxyStream | src/lib/claude-api.ts:303-331 | The proxy path calls `onChunk` exactly once, and the response content is that same text. The text is the first content block's text when compatible, otherwise `choices[0].message.content`, and '' when that is missing or empty. The id is `data.id` or 'ipc-proxy', the model `data.model` or the requested one, the type 'message' and the role 'assistant'. The stop reason is `stop_reason` when compatible, otherwise `choices[0].finish_reason`, or 'end_turn' when that is missing. Usage is `input_tokens`/`output_tokens` when compatible and `prompt_tokens`/`completion_tokens` otherwise, with missing counts as 0. |
| ClaudeApi.ChatStream | src/lib/claude-api.ts:268-456 | As written: outcomes that read no fetch body are those of `Settled`. Otherwise each chunk is decoded on its own, as `ReadUnbuffered` does, and the strings passed to `onChunk` are that decoding. A read that rejects fails the call after those strings went out; without one the response content is their concatenation. |
| ClaudeApi.ChatStreamFixed | src/lib/claude-api.ts:268-456 | The corrected call emits the decoding of the lines of the whole body, independent of the chunk split. A read that rejects fails the call after the complete lines so far were emitted. Outcomes that read no fetch body are those of `Settled`. |
| Preload.ForwardedStreamId | electron/preload.ts:73-76 | As written, the bridge forwards no stream id. |
| Preload.ForwardedStreamIdFixed | electron/preload.ts:73-76 | The corrected bridge forwards the hook's id unchanged. |
| Preload.StartAgentDropsChunks | src/hooks/use-chat.ts:428 | As written, the main process runs under `agent-<digits>`, which never equals the hook's `agent-stream-<n>`, so the hook discards every chunk of its own session (also lines 434, 480). |
| Preload.StartAgentFixedDelivers | src/hooks/use-chat.ts:428 | With the id forwarded, the session id is the hook's id and every chunk is kept (also lines 434, 480). |
| UseChat.AppendContent | src/hooks/use-chat.ts:436-441 | Only the message with the assistant id gains the text at the end of its content; every other message is unchanged, and length and order are kept. |
| UseChat.AppendNothing | src/hooks/use-chat.ts:436-441 | Appending the empty text changes nothing. |
| UseChat.AppendContentTwice | src/hooks/use-chat.ts:436-441 | Two appends equal one append of the concatenated text, so text chunks build the message in order. |
| UseChat.FinishMessage | src/hooks/use-chat.ts:442-447 | The matching message stops streaming with the given error, or none; its content is kept and every other message is unchanged. |
| UseChat.StopAll | src/hooks/use-chat.ts:58-60 | Every streaming message stops with 'User aborted'. Messages that were not streaming are untouched. |
| UseChat.StopAllIdempotent | src/hooks/use-chat.ts:58-60 | Stopping a second time changes nothing. |
| UseChat.SetToolApproval | src/hooks/use-chat.ts:368-381 | Only the matching message's `toolApprovals[toolId]` is set; other messages are unchanged. |
| UseChat.ToolApprovalKeepsOthers | src/hooks/use-chat.ts:373-376 | The tool's status is set, and every other tool's entry is kept as it was. |
| UseChat.ToolApprovalLastWins | src/hooks/use-chat.ts:368-381 | Setting a status twice equals setting the second one. |
| UseChat.AcceptsExactly | src/hooks/use-chat.ts:434 | A chunk is applied exactly when it has no stream id (or an empty one) or the current one. |
| UseChat.ToolResultFence | src/hooks/use-chat.ts:458-463 | A tool result appears in a fenced block holding its first 2000 characters. |
| UseChat.ApplyAgentChunk | src/hooks/use-chat.ts:436-464 | `text` appends to the assistant message. `done`/`error` end it, with the error only for `error`. Tool chunks only extend its content. Other messages are untouched. |
| UseChat.HistoryOf | src/hooks/use-chat.ts:474-476 | The history keeps each message's role and content, in order. |
| UseChat.EstimateTokens | src/hooks/use-chat.ts:209 | The estimate is `ceil(len/4)`. |
| UseChat.AddUsage | src/hooks/use-chat.ts:238-245 | `input_tokens` and `output_tokens` are added, with missing counts as 0, so totals never shrink for non-negative counts. |
| UseChat.AgentStreamId | src/hooks/use-chat.ts:428 | Stream ids start with 'agent-stream-'. |
| UseChat.ShowText | src/hooks/use-chat.ts:223-230 | A text chunk sets the assistant message's content to `full`, or appends `text` when `full` is empty; other messages are unchanged. |
| UseChat.MarkDone | src/hooks/use-chat.ts:231-237 | `done` stops the assistant message and records the usage; other messages are unchanged. |
| UseChat.AgentTurn | src/hooks/use-chat.ts:397-413 | A send appends the user message and then an empty streaming assistant message with a different id. |
| UseChat.ChatHook.constructor | src/hooks/use-chat.ts:33-45 | No messages, no stream and zero totals. |
| UseChat.ChatHook.SendAgentMessage | src/hooks/use-chat.ts:383-480 | Whitespace-only content, or a send already holding the guard, changes nothing. Without Electron, the assistant message ends with the Electron error and the guard is released. Otherwise the new stream id is recorded, the listener subscribed and the history plus the new user message sent. |
| UseChat.ChatHook.BeginTurn | src/hooks/use-chat.ts:394-413 | Sets the guard and `isStreaming` and appends the turn's two messages. |
| UseChat.ChatHook.EndTurn | src/hooks/use-chat.ts:416-424 | Ends the assistant message with the error and releases the guard (also lines 481-488). |
| UseChat.ChatHook.Subscribe | src/hooks/use-chat.ts:428-432 | Records the stream id and the listener. |
| UseChat.ChatHook.OnAgentChunk | src/hooks/use-chat.ts:432-465 | A chunk for another stream changes nothing. An accepted chunk applies `ApplyAgentChunk`. `done`/`error` release the guard, clear the stream id and unsubscribe. |
| UseChat.ChatHook.AgentStartSettled | src/hooks/use-chat.ts:479-492 | A rejected start ends the assistant message with its message; the listener is removed either way. |
| UseChat.ChatHook.StopGenerating | src/hooks/use-chat.ts:47-63 | Stops the agent stream when there is an id and the API offers `stopAgent`, and clears the id. Every streaming message stops with 'User aborted', and both streaming flags are cleared. |
| UseChat.ChatHook.UpdateToolApproval | src/hooks/use-chat.ts:368-381 | The messages become `SetToolApproval` of the old ones; nothing else changes. |
| UseChat.ChatHook.CountPrompt | src/hooks/use-chat.ts:208-213 | `ceil(len/4)` is added to the input total before the request, which never decreases it. |
| UseChat.ChatHook.OnChatChunk | src/hooks/use-chat.ts:222-248 | A non-empty text chunk updates the assistant message. `done` stops it, records the usage and adds the usage to the totals. |
| UseChat.ApplyTextsIsFullText | src/hooks/use-chat.ts:223-230 | Since each `full` is the text so far, applying one stream's text chunks to an empty message leaves exactly the streamed text. |
| ChatPanel.Route | src/components/chat/chat.tsx:143-166 | 'anthropic' posts to `<baseUrl>/v1/messages` with `x-api-key` and `anthropic-version`. 'thirdparty' posts to the same URL with a Bearer token only. 'claude-code' posts to `/api/chat` with only the content type. The body is always streamed with 4096 max tokens, the default model and the history. |
| ChatPanel.LineEffect | src/components/chat/chat.tsx:196-221 | A line without `data: ` has no effect. A line contributes either text or output tokens, never both. |
| ChatPanel.EffectsAppend | src/components/chat/chat.tsx:196-221 | The effect of two runs of lines is their effects in order. |
| ChatPanel.OutputTokensSummed | src/components/chat/chat.tsx:210-216 | Output tokens of successive `message_delta` lines are added, never overwritten. |
| ChatPanel.UnterminatedLineIgnored | src/components/chat/chat.tsx:192-194 | Text after the body's last newline never has an effect. |
| ChatPanel.StopStreaming | src/components/chat/chat.tsx:226-236 | Only the assistant message stops streaming and keeps its content; other messages are unchanged. |
| ChatPanel.Apologise | src/components/chat/chat.tsx:239-243 | Only the assistant message gets the apology with the error message, or '未知错误', and stops streaming. |
| ChatPanel.StopEvery | src/components/chat/chat.tsx:253-255 | Every message ends with streaming off and is otherwise unchanged. |
| ChatPanel.StopDiffersFromHook | src/components/chat/chat.tsx:249-257 | The panel's stop keeps every error, while the hook's stop marks each streaming message 'User aborted'. |
| ChatPanel.Panel.constructor | src/components/chat/chat.tsx:35-42 | Empty input and messages, not streaming, no banner, zero tokens. |
| ChatPanel.Panel.HandleSend | src/components/chat/chat.tsx:98-131 | Blank input or an ongoing stream changes nothing. A missing key, unless the provider is 'claude-code', only sets the banner. Otherwise the trimmed user message and a streaming assistant message are appended, the input is emptied, and the old history plus the user message is returned to send. |
| ChatPanel.Panel.StartTurn | src/components/chat/chat.tsx:114-127 | Appends the turn's two messages, clears the input and banner, and starts streaming. |
| ChatPanel.Panel.HandleLine | src/components/chat/chat.tsx:196-221 | One line appends its text and adds its output tokens. Nothing else changes. |
| ChatPanel.Panel.HandleLines | src/components/chat/chat.tsx:196-222 | A run of lines appends the text of all of them and adds their tokens. |
| ChatPanel.Panel.ReadBody | src/components/chat/chat.tsx:185-223 | The carry buffer handles exactly the complete lines of the concatenated body, whatever its chunking. |
| ChatPanel.Panel.Fail | src/components/chat/chat.tsx:231-246 | An `AbortError` only stops streaming and keeps the content and banner. Any other error sets the banner (or '请求失败') and replaces the content with the apology. |
| ChatPanel.Panel.CallApi | src/components/chat/chat.tsx:133-247 | A fetch that throws ends streaming on an abort and otherwise apologises with its message. A non-OK reply apologises with 'API 请求失败: status - text', and a missing body with '无法读取响应'. A read body appends the text of its complete lines and adds their output tokens. Then the turn stops streaming, or, if a read was interrupted, an abort keeps what was read and any other error apologises with its message. Input tokens never change. |
| ChatPanel.Panel.HandleStop | src/components/chat/chat.tsx:249-257 | Every streaming message stops, and streaming is off. |
| ChatView.TypeFromName | src/components/chat/chat-view.tsx:77 | The type is the text after the last '.', or 'file' when that is empty; it is never empty and holds no '.'. |
| ChatView.AddUnique | src/components/chat/chat-view.tsx:66-80 | A path already attached leaves the list as it was. A new one is appended with the type taken from its name. |
| ChatView.AddUniqueIdempotent | src/components/chat/chat-view.tsx:71-73 | Adding the same path a second time changes nothing. |
| ChatView.FromDropped | src/components/chat/chat-view.tsx:104-108 | The path is Electron's path or else the name. The type is the MIME type or else the extension. |
| ChatView.NewOnes | src/components/chat/chat-view.tsx:111-112 | The result holds exactly the converted files whose path was not attached before, taken from the dropped files. |
| ChatView.NewOnesAppend | src/components/chat/chat-view.tsx:111-113 | The filter keeps the drop's order: the new files of two drops in a row are those of the first followed by those of the second. |
| ChatView.NewOnesOne | src/components/chat/chat-view.tsx:103-112 | One dropped file is kept, converted, exactly when its path was not attached before. |
| ChatView.DropFiles | src/components/chat/chat-view.tsx:102-116 | The old attachments are kept in place, and after them come only files whose path was not attached before the drop. |
| ChatView.DropKeepsDuplicatesWithinDrop | src/components/chat/chat-view.tsx:110-114 | A new file dropped twice in one drop is attached twice, because the check looks only at paths attached before the drop. |
| ChatView.DropNode | src/components/chat/chat-view.tsx:119-136 | A directory node or unparsable data changes nothing. A file node is added once, by path. |
| ChatView.PickedFile | src/components/chat/chat-view.tsx:299-303 | The name is after the last '/', or 'file'. The type is 'image' exactly for png/jpg/jpeg/gif/webp and 'file' otherwise. |
| ChatView.RemoveAt | src/components/chat/chat-view.tsx:307-309 | Only the element at an index in range is removed; an index out of range changes nothing. |
| ChatView.SendRoute | src/components/chat/chat-view.tsx:139-162 | It sends nothing exactly when the input is blank and there are no attachments. A '/' input is a slash command. Code and plan modes start the agent with the trimmed input, and ask mode chats with the attachments. |
| ChatView.WithoutRequest | src/components/chat/chat-view.tsx:382-387 | The result keeps exactly the requests with another id. |
| ChatView.WithoutRequestAppend | src/components/chat/chat-view.tsx:382-387 | Filtering distributes over concatenation, so order is kept. |
| ChatView.AnswerUndoesAdd | src/components/chat/chat-view.tsx:151-153 | Answering a request just added, whose id was not pending, gives back the earlier list (also lines 380-388). |
| ChatView.ChatViewState.constructor | src/components/chat/chat-view.tsx:37-42 | No attachments, no pending requests and no resolutions. |
| ChatView.ChatViewState.FileAdd | src/components/chat/chat-view.tsx:66-83 | The attachments become `AddUnique` of the old ones. |
| ChatView.ChatViewState.Drop | src/components/chat/chat-view.tsx:98-137 | Native files take priority; without them the dragged node decides. |
| ChatView.ChatViewState.FileSelect | src/components/chat/chat-view.tsx:287-305 | A picked path is appended without a duplicate check. With no Electron or nothing picked, nothing changes. |
| ChatView.ChatViewState.RemoveAttachment | src/components/chat/chat-view.tsx:307-309 | The attachments become `RemoveAt` of the old ones. |
| ChatView.ChatViewState.HandleSend | src/components/chat/chat-view.tsx:139-162 | Returns `SendRoute`. The attachments are cleared on the agent and chat paths only. |
| ChatView.ChatViewState.OnPermissionRequest | src/components/chat/chat-view.tsx:151-153 | The request is appended. |
| ChatView.ChatViewState.Answer | src/components/chat/chat-view.tsx:378-389 | With Electron, one allow or deny resolution (with the rejection message) is sent for the request id. All entries with that id are removed. |
| ChatMessage.Lookup | src/components/chat/chat-message.tsx:33 | A value found for a key is the value of an entry with that key. |
| ChatMessage.Put | src/components/chat/chat-message.tsx:37 | After the store, the key maps to the new value. |
| ChatMessage.PutKeepsOthers | src/components/chat/chat-message.tsx:37 | Other keys keep their values. An existing key keeps its place, and a new key goes last. |
| ChatMessage.QuoteEnd | src/components/chat/chat-message.tsx:30-34 | `[^"]+"` ends at a '"' after a non-empty run. |
| ChatMessage.QuoteEndClean | src/components/chat/chat-message.tsx:30-34 | The run holds no '"'. |
| ChatMessage.QuoteEndAt | src/components/chat/chat-message.tsx:30-34 | A name without '"' followed by '"' is the run. |
| ChatMessage.InvokeFrom | src/components/chat/chat-message.tsx:30 | A captured tool name is non-empty and free of '"'. |
| ChatMessage.InvokeName | src/components/chat/chat-message.tsx:30 | A block without `<invoke name="` gives no match. |
| ChatMessage.InvokeNameFound | src/components/chat/chat-message.tsx:30 | The first written-out `<invoke name="n"` gives `n`. |
| ChatMessage.ClassElementAt | src/components/chat/chat-message.tsx:34 | A match ends after its start and has a non-empty name. |
| ChatMessage.LazyElementAt | src/components/chat/chat-message.tsx:84 | A lazy match ends after its start and has a non-empty name. |
| ChatMessage.ElementPieces | src/components/chat/chat-message.tsx:34 | A written-out element shows each piece at its offset (also line 84). |
| ChatMessage.ClassElementMatch | src/components/chat/chat-message.tsx:34 | A parameter element written out is exactly the match at its position. |
| ChatMessage.ClassElementParts | src/components/chat/chat-message.tsx:34 | The pieces found in place make up the match. |
| ChatMessage.LazyElementMatch | src/components/chat/chat-message.tsx:84 | A file element with no earlier closing tag is the lazy match at its position. |
| ChatMessage.LazyElementParts | src/components/chat/chat-message.tsx:84 | The pieces found in place make up the lazy match. |
| ChatMessage.ClassElementClean | src/components/chat/chat-message.tsx:34 | The captured name has no '"' and the value has no '<'. |
| ChatMessage.ParamFrom | src/components/chat/chat-message.tsx:34-36 | `exec` from `lastIndex` returns a match that ends after `lastIndex`. |
| ChatMessage.ParamFromClean | src/components/chat/chat-message.tsx:34-36 | Every hit keeps to the pattern's character classes. |
| ChatMessage.ParamsStep | src/components/chat/chat-message.tsx:36-38 | A turn stores the trimmed hit and resumes at its end. |
| ChatMessage.ParamAtElement | src/components/chat/chat-message.tsx:34-36 | A parameter element at `lastIndex` is the next hit. |
| ChatMessage.ParamsOfElement | src/components/chat/chat-message.tsx:36-38 | Such an element is stored with its value trimmed. |
| ChatMessage.ParamsLastWins | src/components/chat/chat-message.tsx:37 | When two hits in a row name the same key, the scan stores the second trimmed value as if the first had not been there. |
| ChatMessage.ScanParameters | src/components/chat/chat-message.tsx:33-38 | The `while (exec)` loop collects exactly the scanner's parameters. |
| ChatMessage.ToolIdInjective | src/components/chat/chat-message.tsx:40 | Ids `tool-<i>-<name>` with different counters differ. |
| ChatMessage.ToolOf | src/components/chat/chat-message.tsx:30-41 | The id is `tool-<i>-<name>`, with a non-empty name free of '"'. |
| ChatMessage.ToolsOf | src/components/chat/chat-message.tsx:25-41 | The k-th block is the k-th tool, numbered k. |
| ChatMessage.ToolsOfAppend | src/components/chat/chat-message.tsx:40-41 | One more block continues the count. |
| ChatMessage.BlockFrom | src/components/chat/chat-message.tsx:28 | A match holds both tags, in order, inside the text. |
| ChatMessage.ParseToolCalls | src/components/chat/chat-message.tsx:23-48 | The replace with its callback returns the trimmed kept text and the numbered tools of the blocks cut out. |
| ChatMessage.ToolIdsDistinct | src/components/chat/chat-message.tsx:40 | The tools of one message have distinct ids. |
| ChatMessage.PlainTextUntouched | src/components/chat/chat-message.tsx:27-47 | Text without an opening tag is only trimmed and has no tools. |
| ChatMessage.PlainBodyIsShortest | src/components/chat/chat-message.tsx:28 | A body without '<' is a shortest match. |
| ChatMessage.BlockCutOut | src/components/chat/chat-message.tsx:27-44 | A written-out block is cut out whole; the text before it is kept and the scan resumes after it. |
| ChatMessage.UnknownToolName | src/components/chat/chat-message.tsx:31 | A block without `<invoke name="` is 'unknown_tool'. |
| ChatMessage.NoFileContextUntouched | src/components/chat/chat-message.tsx:83-85 | Text without `<file_context` is shown unchanged. |
| ChatMessage.RewriteStep | src/components/chat/chat-message.tsx:84 | A match is replaced by its marker and the search resumes after it. |
| ChatMessage.FileContextReplaced | src/components/chat/chat-message.tsx:84 | A written-out file block becomes '> 📎 附加了文件上下文: `path`' and a newline. |
| ChatMessage.DisplayContent | src/components/chat/chat-message.tsx:83-85 | Assistant messages are shown as written, and so are user messages without a file block. |
| ChatMessage.Shown | src/components/chat/chat-message.tsx:88-90 | User and streaming messages have no tools; finished assistant messages are tool-parsed. |
| ChatMessage.ToolStatus | src/components/chat/chat-message.tsx:255 | The status is the recorded one, or 'pending' when none is recorded. |
| ChatMessage.StatusFollowsApproval | src/components/chat/chat-message.tsx:255 | After `updateToolApproval`, that tool shows the new status and the others keep theirs. |
| ChatMessage.Approve | src/components/chat/chat-message.tsx:92-114 | Without the API, nothing happens. A command tool sends `cmd + '\r'` exactly when the command is non-empty and `sendTerminalData` exists. A write tool writes `(path || file_path, content)` exactly when both are non-empty and `writeFile` exists. The callback is told the tool was approved exactly when the API exists and no attempted write rejected; a rejected `writeFile` skips it. |
| ChatMessage.CommandPrecedence | src/components/chat/chat-message.tsx:101 | The command comes from `command`, then `cmd`, then the first parameter; with no parameters it is ''. |
| SlashCommands.SkillCommands | src/components/chat/slash-commands.tsx:38-47 | Each enabled skill has an entry '/<name>' with action 'skill:<name>'. Every entry comes from an enabled skill. |
| SlashCommands.SkillCommandsAppend | src/components/chat/slash-commands.tsx:38-47 | The entries keep the skills' order. |
| SlashCommands.AllCommands | src/components/chat/slash-commands.tsx:24-49 | The five built-ins come first, then the skill entries. |
| SlashCommands.SearchTerm | src/components/chat/slash-commands.tsx:51 | The term is the lower-cased text after a leading '/', else ''. |
| SlashCommands.Matching | src/components/chat/slash-commands.tsx:53-56 | The result holds exactly the commands whose lower-cased name, or non-empty description, contains the term. |
| SlashCommands.MatchingAppend | src/components/chat/slash-commands.tsx:53-56 | The filter keeps the commands' order. |
| SlashCommands.MatchingIdempotent | src/components/chat/slash-commands.tsx:53-56 | Filtering twice is filtering once. |
| SlashCommands.Filtered | src/components/chat/slash-commands.tsx:52-57 | An empty term keeps everything; otherwise the matching commands are kept. |
| SlashCommands.GetSelectedCommand | src/components/chat/slash-commands.tsx:198-211 | There is an item exactly when the index is inside the filtered list; it is that item, which is one of the commands. |
| SlashCommands.BuiltinsAlwaysListed | src/components/chat/slash-commands.tsx:24-49 | The built-ins stay at positions 0-4 whatever the skills, with distinct actions. |
| SlashCommands.ParseSlashCommand | src/components/chat/slash-commands.tsx:187-195 | The result is `null` exactly when the input lacks a leading '/'. The command holds no space. |
| SlashCommands.ParseSlashCommandRoundTrip | src/components/chat/slash-commands.tsx:187-195 | '/', the command, and ' ' plus the value when there was a space give back the input. |
| CommandPalette.MatchingCommands | src/components/chat/command-palette.tsx:67-72 | The result holds exactly the commands whose lower-cased name contains the lower-cased search, or whose description contains the search as typed. |
| CommandPalette.Commands | src/components/chat/command-palette.tsx:20-60 | An empty search lists all five commands; otherwise the matching ones are listed (also lines 66-72). |
| CommandPalette.Down | src/components/chat/command-palette.tsx:88-91 | ArrowDown moves one down, but never past the last item. It gives -1 on an empty list. |
| CommandPalette.Up | src/components/chat/command-palette.tsx:92-95 | ArrowUp moves one up, but never below 0. |
| CommandPalette.UpDownInverse | src/components/chat/command-palette.tsx:88-95 | Inside the list, Up undoes Down and Down undoes Up. |
| CommandPalette.Palette.constructor | src/components/chat/command-palette.tsx:63-64 | Empty search, selection 0, closed. |
| CommandPalette.Palette.Open | src/components/chat/command-palette.tsx:74-80 | Opening clears the search and the selection. |
| CommandPalette.Palette.SetSearch | src/components/chat/command-palette.tsx:82-126 | A new search resets the selection to 0. |
| CommandPalette.Palette.KeyDown | src/components/chat/command-palette.tsx:86-110 | Keys reach the palette only while it is open, since a closed palette renders nothing. The arrows move the selection. Enter runs the selected command and closes only when one is selected. Escape closes without running anything. On a non-empty list the selection is always an item, so Enter there always runs a command and closes; on an empty list it is 0 or -1 and Enter does nothing. |
| CommandPalette.Palette.Click | src/components/chat/command-palette.tsx:145-149 | A click, which reaches only an open palette, runs that command and closes the palette. |
| FileTree.Visible | src/components/sidebar/file-tree.tsx:36 | The result holds exactly the entries whose name does not start with '.'. |
| FileTree.NameLeTotal | src/components/sidebar/file-tree.tsx:40 | Any two names are ordered one way or the other. |
| FileTree.NameLeTrans | src/components/sidebar/file-tree.tsx:40 | The name order is transitive. |
| FileTree.BeforeTotal | src/components/sidebar/file-tree.tsx:37-41 | The comparator orders any two entries. |
| FileTree.BeforeTrans | src/components/sidebar/file-tree.tsx:37-41 | The comparator is transitive. |
| FileTree.InsertSorted | src/components/sidebar/file-tree.tsx:37-41 | Inserting into a sorted listing keeps it sorted. |
| FileTree.SortEntriesPermutes | src/components/sidebar/file-tree.tsx:37-41 | The sort is a permutation of its input. |
| FileTree.SortInsertPermutes | src/components/sidebar/file-tree.tsx:37-41 | An insertion adds exactly the one entry. |
| FileTree.SortEntriesSorted | src/components/sidebar/file-tree.tsx:37-41 | The sort leaves the entries in comparator order. |
| FileTree.NewNode | src/components/sidebar/file-tree.tsx:42-48 | A new node keeps name, kind and path, starts collapsed, and has no children. |
| FileTree.Listing | src/components/sidebar/file-tree.tsx:34-49 | The k-th node is the k-th sorted visible entry. |
| FileTree.ListingShape | src/components/sidebar/file-tree.tsx:34-49 | Every visible entry is listed and no hidden one is. Directories come before files, each group is ordered by name, and every node is collapsed and childless. |
| FileTree.UpdateNode | src/components/sidebar/file-tree.tsx:89-99 | A node with the path is flipped; other nodes are looked into. |
| FileTree.UpdateNodes | src/components/sidebar/file-tree.tsx:89-99 | The length is kept. |
| FileTree.UpdateNodesAt | src/components/sidebar/file-tree.tsx:90 | The k-th result is the k-th node updated. |
| FileTree.UpdateAbsent | src/components/sidebar/file-tree.tsx:89-99 | Toggling a path that occurs nowhere changes nothing. |
| FileTree.UpdateTwice | src/components/sidebar/file-tree.tsx:89-100 | Toggling the same path twice restores the tree. |
| FileTree.UpdateKeepsPaths | src/components/sidebar/file-tree.tsx:89-99 | Toggling keeps the tree's paths. |
| FileTree.InstallNode | src/components/sidebar/file-tree.tsx:74-84 | A node with the path gets the children and is flipped; other nodes are looked into. |
| FileTree.InstallNodes | src/components/sidebar/file-tree.tsx:74-84 | The length is kept. |
| FileTree.InstallNodesAt | src/components/sidebar/file-tree.tsx:75 | The k-th result is the k-th node installed. |
| FileTree.InstallEmptyIsUpdate | src/components/sidebar/file-tree.tsx:74-100 | Installing no children into childless nodes is the plain toggle. |
| FileTree.KeepOne | src/components/sidebar/file-tree.tsx:367-375 | One turn pushes at most one node. |
| FileTree.Filter | src/components/sidebar/file-tree.tsx:364-379 | The result is never longer than the input. |
| FileTree.FilterRelevant | src/components/sidebar/file-tree.tsx:364-379 | Every kept node matches or has a matching descendant. |
| FileTree.FilterNoneMatch | src/components/sidebar/file-tree.tsx:364-379 | A forest with no matching name filters to nothing. |
| FileTree.FilterIdempotent | src/components/sidebar/file-tree.tsx:364-379 | Filtering twice is filtering once. |
| FileTree.FilterAppend | src/components/sidebar/file-tree.tsx:367-376 | The filter keeps the nodes' order. |
| FileTree.FilterFiles | src/components/sidebar/file-tree.tsx:364-379 | The `for` loop with its recursive calls returns exactly `Filter`. |
| FileTree.FilteredFiles | src/components/sidebar/file-tree.tsx:147-149 | An empty query keeps the tree; otherwise the tree is filtered with the lower-cased query. |
| FileTree.Tree.constructor | src/components/sidebar/file-tree.tsx:22 | The tree starts empty. |
| FileTree.Tree.LoadFiles | src/components/sidebar/file-tree.tsx:31-50 | Without Electron nothing changes; otherwise the listing replaces the tree. |
| FileTree.Tree.ToggleDirectory | src/components/sidebar/file-tree.tsx:52-102 | A file does nothing. A childless directory has its loaded listing installed when `readDir` answered. A directory with children is flipped. |
| FilePanel.PreviewText | src/components/sidebar/file-panel.tsx:224 | The preview is a prefix of the content of at most 2000 characters, and is the whole content when that is short enough. |
| FilePanel.Remaining | src/components/sidebar/file-panel.tsx:225-227 | The note appears exactly when the content is longer than 2000 characters. It reports `length - 2000`, so shown plus remaining is the length. |
| FilePanel.PreviewSplit | src/components/sidebar/file-panel.tsx:224-227 | The shown text and the hidden rest make up the content, and the rest has the reported length. |
| FilePanel.Panel.constructor | src/components/sidebar/file-panel.tsx:16-19 | No root, no files, no selection and no preview. |
| FilePanel.Panel.Mount | src/components/sidebar/file-panel.tsx:20-30 | With Electron, the home directory becomes the root and is listed. |
| FilePanel.Panel.LoadFiles | src/components/sidebar/file-panel.tsx:33-53 | Without Electron, or for an empty path, nothing changes. Otherwise the listing (hidden names dropped, directories first, collapsed) replaces the tree. |
| FilePanel.Panel.ToggleDirectory | src/components/sidebar/file-panel.tsx:55-106 | A file does nothing. A childless directory gets its loaded children and is flipped. A directory with children is flipped. |
| FilePanel.Panel.SelectFile | src/components/sidebar/file-panel.tsx:108-126 | A directory is toggled: with no children shown it gets the loaded listing installed, otherwise its `expanded` flips. A file becomes the selection and, when read with non-empty content that `atob` decodes, the preview typed by its extension; otherwise, including when `atob` throws on text that is not base64, the preview is kept. |
| FilePanel.Panel.SelectDirectory | src/components/sidebar/file-panel.tsx:128-135 | A chosen path becomes the root, is listed, and closes the preview; a cancelled dialog changes nothing. |
| FilePanel.Panel.ClosePreview | src/components/sidebar/file-panel.tsx:217 | The preview closes and nothing else changes. |
| UseSkills.NamesAndIdsAppend | src/hooks/use-skills.ts:73-76 | Adding a skill adds exactly its name and id to the seen sets. |
| UseSkills.UniqueAppend | src/hooks/use-skills.ts:73-76 | A skill whose name and id are both new keeps names and ids unique. |
| UseSkills.KeptIsUnique | src/hooks/use-skills.ts:68-78 | The kept skills have unique names and ids and all come from storage. Every dropped skill clashed with a kept one by name or id. |
| UseSkills.KeptAllIffUnique | src/hooks/use-skills.ts:68-82 | Nothing is dropped, so storage is not rewritten, exactly when the stored list had no duplicate name or id. |
| UseSkills.KeptIdempotent | src/hooks/use-skills.ts:68-78 | Repairing twice is repairing once. |
| UseSkills.Dedupe | src/hooks/use-skills.ts:68-78 | The `forEach` with its two seen-sets returns exactly the first-occurrence list. |
| UseSkills.UpdateSkill | src/hooks/use-skills.ts:109-114 | Skills with the id take the patch; the others stay in place. |
| UseSkills.ToggleSkill | src/hooks/use-skills.ts:121-126 | Only skills with the id flip `enabled`; nothing else changes. |
| UseSkills.DeleteSkill | src/hooks/use-skills.ts:116-119 | The result keeps exactly the skills with another id. |
| UseSkills.ToggleTwice | src/hooks/use-skills.ts:121-126 | Toggling twice restores the list. |
| UseSkills.DeleteAbsent | src/hooks/use-skills.ts:116-119 | Deleting an absent id changes nothing. |
| UseSkills.DeleteAfterUpdate | src/hooks/use-skills.ts:109-126 | An update or toggle is invisible after deleting that id, since they touch only that id. |
| UseSkills.FindEnabled | src/hooks/use-skills.ts:129 | The result is the first enabled skill of that name, or there is none. |
| UseSkills.GetSkillPrompt | src/hooks/use-skills.ts:128-131 | The prompt of the first enabled skill of that name; `null` when there is no such skill or its prompt is empty. |
| UseSkills.FirstNamed | src/hooks/use-skills.ts:138 | A batch entry of that name, which is absent exactly when no entry has the name. |
| UseSkills.Refreshed | src/hooks/use-skills.ts:137-145 | A named skill is enabled with the batch entry's prompt and path and otherwise unchanged. Any other skill stays the same. |
| UseSkills.LocalIdsDiffer | src/hooks/use-skills.ts:153 | Ids `local-<now>-<i>` differ for different indices. |
| UseSkills.AdditionsAreNew | src/hooks/use-skills.ts:147-155 | Added skills have new and mutually distinct names, and every batch name ends up existing or added. |
| UseSkills.ScannedDraft | src/hooks/use-skills.ts:178-184 | A scanned skill has an empty prompt and is enabled, and a blank description becomes '本地 Skill'. |
| UseSkills.SkillStore.constructor | src/hooks/use-skills.ts:58 | The list starts empty. |
| UseSkills.SkillStore.Load | src/hooks/use-skills.ts:61-92 | Readable storage yields the repaired list, written back only when something was dropped. Missing or unparsable storage yields the five defaults. |
| UseSkills.SkillStore.SaveSkills | src/hooks/use-skills.ts:95-98 | The list and storage both become the new list. |
| UseSkills.SkillStore.AddSkill | src/hooks/use-skills.ts:100-107 | Exactly one skill with the new id is appended and saved. |
| UseSkills.SkillStore.Update | src/hooks/use-skills.ts:109-114 | Applies `UpdateSkill` and saves. |
| UseSkills.SkillStore.Delete | src/hooks/use-skills.ts:116-119 | Applies `DeleteSkill` and saves. |
| UseSkills.SkillStore.Toggle | src/hooks/use-skills.ts:121-126 | Applies `ToggleSkill` and saves. |
| UseSkills.SkillStore.AddSkillsBatch | src/hooks/use-skills.ts:134-167 | Refreshed skills come first, then the new-name entries in batch order. When nothing is refreshed or added, the list and storage are unchanged. |
| Store.Merge | src/lib/store.ts:121-125 | Each field present in the partial wins, and each absent field keeps the current value. |
| Store.MergeIdempotent | src/lib/store.ts:121-125 | Merging the same partial twice is merging it once, and an empty partial changes nothing. |
| Store.FindIndex | src/lib/store.ts:40-62 | The result is the first position holding the id, or there is none. |
| Store.Upsert | src/lib/store.ts:38-49 | A known id is replaced in place at its first position; a new one is put first. |
| Store.UpsertFinds | src/lib/store.ts:38-49 | After a save, looking up the id finds the saved conversation. |
| Store.FindIndexAt | src/lib/store.ts:40 | The first position holding the id is what `findIndex` returns. |
| Store.UpsertIdempotent | src/lib/store.ts:38-49 | Saving twice is saving once. |
| Store.RemoveId | src/lib/store.ts:52 | The result keeps exactly the conversations with another id. |
| Store.RemoveMessage | src/lib/store.ts:89 | The result keeps exactly the messages with another id. |
| Store.RewriteKeepsOthers | src/lib/store.ts:85-95 | `deleteMessage` leaves every key of an unlisted conversation as it was. |
| Store.RewriteRemoves | src/lib/store.ts:85-95 | After `deleteMessage`, no stored list holds the message, provided only listed conversations held it. |
| Store.DeleteEachKeepsOthers | src/lib/store.ts:56-95 | Repeated `deleteMessage` leaves unlisted conversations' keys as they were. |
| Store.MessageIds | src/lib/store.ts:57 | The ids of the messages, in order. |
| Store.RemovedIdAbsent | src/lib/store.ts:52 | The filtered list no longer holds the id. |
| Store.Storage.constructor | src/lib/store.ts:26-30 | Nothing is stored. |
| Store.Storage.GetSettings | src/lib/store.ts:111-119 | Without stored settings, the defaults are sonnet, light, 14 and JetBrains Mono. |
| Store.Storage.GetTokenStats | src/lib/store.ts:140-144 | The stats saved for that id, or `null`. |
| Store.Storage.SaveConversation | src/lib/store.ts:38-49 | The list becomes `Upsert` of the stored list; nothing else changes. |
| Store.Storage.ArchiveConversation | src/lib/store.ts:60-68 | The first conversation with the id flips `archived` and is stamped; an unknown id writes nothing. |
| Store.Storage.SaveMessage | src/lib/store.ts:76-83 | The message is appended to its conversation's list. |
| Store.Storage.DeleteMessage | src/lib/store.ts:85-95 | The list of every stored conversation is rewritten without the message. |
| Store.Storage.DeleteConversation | src/lib/store.ts:51-58 | As written: the conversation leaves the list first, and then `deleteMessage` runs per message over the remaining conversations only. |
| Store.DeletedMessagesRemain | src/lib/store.ts:51-58 | So the deleted conversation's own message entry is left untouched. |
| Store.DeletedMessageExample | src/lib/store.ts:51-58 | A conversation "1" with one message "m" still has `[m]` stored after `deleteConversation("1")`. |
| Store.Storage.DeleteConversationAndMessages | src/lib/store.ts:51-58 | Corrected: the conversation and its message entry both go, and nothing else changes. |
| Store.Storage.ClearMessages | src/lib/store.ts:97-99 | Only that conversation's key is removed. |
| Store.Storage.SaveSettings | src/lib/store.ts:121-125 | The partial is merged over the current settings, or the defaults. |
| Store.Storage.SaveTokenStats | src/lib/store.ts:135-138 | Only that id's stats are written. |
| UseConversations.Apply | src/hooks/use-conversations.ts:56 | Each field present in the patch wins, and `updatedAt` is kept for the stamp. |
| UseConversations.NewConversation | src/hooks/use-conversations.ts:40-48 | The id is `now`, and an empty or missing title becomes '新对话'. The model is sonnet and the mode chat, it is not archived, and both stamps are `now`. |
| UseConversations.NewConversationIdsDiffer | src/hooks/use-conversations.ts:41 | Conversations created at different times have different ids. |
| UseConversations.Updated | src/hooks/use-conversations.ts:55-57 | Conversations with the id take the patch and the stamp; the others are unchanged. |
| UseConversations.UpdatedAbsent | src/hooks/use-conversations.ts:55-57 | An unknown id changes nothing. |
| UseConversations.UpdatedIdempotent | src/hooks/use-conversations.ts:55-57 | Applying the same update twice is applying it once. |
| UseConversations.UpdatedKeepsIds | src/hooks/use-conversations.ts:55-57 | A patch without an id keeps the set of ids. |
| UseConversations.Toggled | src/hooks/use-conversations.ts:64-66 | Exactly the conversations with the id flip `archived`; ids are kept and others are unchanged. |
| UseConversations.ToggledTwice | src/hooks/use-conversations.ts:63-68 | Archiving twice restores every flag, and only the last stamp remains. |
| UseConversations.Conversations.constructor | src/hooks/use-conversations.ts:19 | The list starts empty. |
| UseConversations.Conversations.Load | src/hooks/use-conversations.ts:22-31 | A stored list replaces the state. |
| UseConversations.Conversations.Save | src/hooks/use-conversations.ts:34-37 | The list is stored and becomes the state. |
| UseConversations.Conversations.Create | src/hooks/use-conversations.ts:39-51 | The new conversation goes first, is saved and is returned. |
| UseConversations.Conversations.Update | src/hooks/use-conversations.ts:53-61 | Applies `Updated` and writes through. |
| UseConversations.Conversations.Archive | src/hooks/use-conversations.ts:63-68 | Applies `Toggled` and writes through. |
| UseConversations.Conversations.Delete | src/hooks/use-conversations.ts:70-75 | The conversation leaves the list, and its message key is removed. |
| UseMcpServers.Apply | src/hooks/use-mcp-servers.ts:51 | Each field present in the patch wins, and each absent field is kept. |
| UseMcpServers.Updated | src/hooks/use-mcp-servers.ts:49-54 | Servers with the id take the patch; the others are unchanged and in place. |
| UseMcpServers.UpdatedIdempotent | src/hooks/use-mcp-servers.ts:49-54 | Updating twice with the same patch is updating once. |
| UseMcpServers.UpdatedAbsent | src/hooks/use-mcp-servers.ts:49-54 | An unknown id changes nothing. |
| UseMcpServers.Without | src/hooks/use-mcp-servers.ts:56-59 | The result holds exactly the servers with another id. |
| UseMcpServers.WithoutAbsent | src/hooks/use-mcp-servers.ts:56-59 | Deleting an unknown id removes nothing. |
| UseMcpServers.WithoutAppend | src/hooks/use-mcp-servers.ts:57 | The filter keeps order. |
| UseMcpServers.AddThenDelete | src/hooks/use-mcp-servers.ts:40-59 | Deleting a server just added under a fresh id restores the list. |
| UseMcpServers.Toggled | src/hooks/use-mcp-servers.ts:61-66 | Exactly the servers with the id flip `enabled`, and nothing else changes. |
| UseMcpServers.ToggledTwice | src/hooks/use-mcp-servers.ts:61-66 | Toggling twice restores the list. |
| UseMcpServers.Servers.constructor | src/hooks/use-mcp-servers.ts:20 | The list starts empty. |
| UseMcpServers.Servers.Load | src/hooks/use-mcp-servers.ts:23-32 | A stored list replaces the state. |
| UseMcpServers.Servers.Save | src/hooks/use-mcp-servers.ts:35-38 | The list is stored and becomes the state. |
| UseMcpServers.Servers.Add | src/hooks/use-mcp-servers.ts:40-47 | The server with the clock's id goes last, is saved and is returned. |
| UseMcpServers.Servers.Update | src/hooks/use-mcp-servers.ts:49-54 | Applies `Updated` and saves. |
| UseMcpServers.Servers.Delete | src/hooks/use-mcp-servers.ts:56-59 | Applies `Without` and saves. |
| UseMcpServers.Servers.Toggle | src/hooks/use-mcp-servers.ts:61-66 | Applies `Toggled` and saves. |
| ConversationList.Active | src/components/sidebar/conversation-list.tsx:32 | the active list holds exactly the conversations of the list that are not archived |
| ConversationList.Archived | src/components/sidebar/conversation-list.tsx:33 | the archived list holds exactly the archived conversations of the list |
| ConversationList.ActiveArchivedPartition | src/components/sidebar/conversation-list.tsx:32-33 | the active and archived lists together hold every conversation exactly as often as the whole list, and their lengths add up to its length |
| ConversationList.MatchingTitles | src/components/sidebar/conversation-list.tsx:36 | the search result holds exactly the conversations whose lower-cased title contains the lower-cased query, and is no longer than the list |
| ConversationList.MatchingTitlesAppend | src/components/sidebar/conversation-list.tsx:36 | the search keeps the list's order: searching a concatenation is concatenating the searches |
| ConversationList.FilteredActive | src/components/sidebar/conversation-list.tsx:35-37 | an empty query shows the whole active list; otherwise the shown conversations are exactly the active ones whose title matches |
| ConversationList.MatchingTitlesIdempotent | src/components/sidebar/conversation-list.tsx:35-37 | searching the result again with the same query changes nothing |
| ConversationList.MatchesIgnoreQueryCase | src/components/sidebar/conversation-list.tsx:36 | a query finds the same conversations as its lower-cased form, so the search ignores the query's case |
| ConversationList.RenameTo | src/components/sidebar/conversation-list.tsx:152-157 | a rename is reported exactly when the edited text is not blank and differs from the title, and then carries the trimmed, non-empty text |
| ConversationList.Item.constructor | src/components/sidebar/conversation-list.tsx:136-137 | a row starts not editing, with the edit text equal to the title |
| ConversationList.Item.TitleChanged | src/components/sidebar/conversation-list.tsx:141-143 | A render with a changed title overwrites the edit text; the same title leaves an edit in progress alone. The editing flag never changes. |
| ConversationList.Item.StartEditing | src/components/sidebar/conversation-list.tsx:197 | the pencil button turns editing on and changes nothing else |
| ConversationList.Item.Edit | src/components/sidebar/conversation-list.tsx:184 | typing replaces the edit text and changes nothing else |
| ConversationList.Item.Rename | src/components/sidebar/conversation-list.tsx:152-185 | the rename reported is RenameTo of the edit text and the title, and editing ends whether or not one is reported |
| ConversationList.Item.KeyDown | src/components/sidebar/conversation-list.tsx:159-165 | Enter renames as Rename does; Escape reports nothing, ends editing and restores the edit text to the title; any other key changes nothing |
| Sidebar.Active | src/components/sidebar/sidebar.tsx:26 | the active list holds exactly the conversations that are not archived |
| Sidebar.Archived | src/components/sidebar/sidebar.tsx:27 | the archived list holds exactly the archived conversations |
| Sidebar.ActiveArchivedPartition | src/components/sidebar/sidebar.tsx:26-27 | the two lists together hold every conversation exactly as often as the whole list |
| Sidebar.SetArchived | src/components/sidebar/sidebar.tsx:40-44 | the list keeps its length, ids and titles; only the conversations with the given id change, and they get the new archived flag |
| Sidebar.SetArchivedMoves | src/components/sidebar/sidebar.tsx:40-44 | after archiving no conversation with that id is active; after restoring none with that id is archived (also lines 100-104) |
| Sidebar.RestoreAfterArchive | src/components/sidebar/sidebar.tsx:40-44 | restoring an active conversation after archiving it gives back the list as it was, except the time stamps of that id (also lines 100-104) |
| Sidebar.Without | src/components/sidebar/sidebar.tsx:47 | the list after a delete holds exactly the conversations with another id |
| Sidebar.SelectionAfterDelete | src/components/sidebar/sidebar.tsx:48-50 | a selection is reported exactly when the deleted conversation was selected, and it is the first id of the list before the delete, or '' for an empty list |
| Sidebar.SelectionAfterDeleteKeepsDeleted | src/components/sidebar/sidebar.tsx:46-51 | deleting the selected conversation when it is first in the list selects its id again, though no remaining conversation has that id |
| Sidebar.SelectionAfterDeleteFixed | src/components/sidebar/sidebar.tsx:46-51 | the corrected fallback reports a selection exactly when the deleted conversation was selected |
| Sidebar.SelectionAfterDeleteFixedRemains | src/components/sidebar/sidebar.tsx:46-51 | the corrected selection is never the deleted id; it is a remaining conversation when one remains, and '' otherwise |
| Sidebar.Panel.constructor | src/components/sidebar/sidebar.tsx:21-24 | the sidebar starts with one active conversation '1' titled 新建对话 and the archived list folded |
| Sidebar.Panel.NewConversation | src/components/sidebar/sidebar.tsx:29-38 | a new active conversation whose id is the time goes first, the rest follow unchanged, and its id is selected |
| Sidebar.Panel.Archive | src/components/sidebar/sidebar.tsx:40-44 | the new list is SetArchived with the flag set |
| Sidebar.Panel.Restore | src/components/sidebar/sidebar.tsx:100-104 | the new list is SetArchived with the flag cleared |
| Sidebar.Panel.Delete | src/components/sidebar/sidebar.tsx:46-51 | the conversation is removed and the selection reported is SelectionAfterDelete of the old list |
| Sidebar.Panel.DeleteFixed | src/components/sidebar/sidebar.tsx:46-51 | the corrected delete removes the conversation and reports SelectionAfterDeleteFixed |
| Sidebar.Panel.ToggleArchived | src/components/sidebar/sidebar.tsx:85 | the toggle flips whether the archived list is shown and leaves the list alone |
| UseTheme.ThemeClass | src/hooks/use-theme.ts:55 | the class is gradient-aurora exactly for the gradient theme, dark exactly for the dark theme, and empty for every other name |
| UseTheme.Remove | src/hooks/use-theme.ts:39 | removing a class leaves exactly the other classes and keeps a list free of repeats |
| UseTheme.Add | src/hooks/use-theme.ts:41-45 | adding a class gives exactly the old classes and that one, and keeps a list free of repeats |
| UseTheme.ApplyClasses | src/hooks/use-theme.ts:36-46 | after the effect, dark is present exactly for the dark and gradient themes, gradient-aurora exactly for the gradient theme, and every other class is as before |
| UseTheme.RemoveAppend | src/hooks/use-theme.ts:39 | removing a class from a concatenation removes it from each part |
| UseTheme.RemoveAbsent | src/hooks/use-theme.ts:39 | removing a class that is absent changes nothing |
| UseTheme.ClearedOfApplied | src/hooks/use-theme.ts:36-46 | clearing both theme classes after applying a theme gives what clearing alone gives |
| UseTheme.ApplyLastWins | src/hooks/use-theme.ts:36-49 | applying one theme after another gives the same classes as applying the second alone |
| UseTheme.ReloadKeepsTheme | src/hooks/use-theme.ts:16-48 | after the mount and the theme effect the storage holds the migration flag and the theme, so the next start loads the same theme and writes nothing new |
| UseTheme.MigrationForcesGradient | src/hooks/use-theme.ts:20-23 | before the migration the gradient theme is loaded whatever was saved, and the theme and the flag are written |
| UseTheme.MigratedLoadsSaved | src/hooks/use-theme.ts:25-32 | after the migration a saved non-empty name is loaded as it is, a missing one gives gradient, and storage is left alone |
| UseTheme.ThemeHook.constructor | src/hooks/use-theme.ts:14 | the hook starts on the gradient theme |
| UseTheme.ThemeHook.Migrate | src/hooks/use-theme.ts:16-34 | the mount effect sets the theme to LoadedTheme of the storage and the storage to MigratedStorage, and leaves the classes alone |
| UseTheme.ThemeHook.ApplyEffect | src/hooks/use-theme.ts:36-49 | the theme effect sets the classes to ApplyClasses for the rendered theme and persists that theme |
| UseTheme.ThemeHook.Mount | src/hooks/use-theme.ts:14-49 | after the first render the theme is the loaded one, the classes are those of the loaded theme alone, the storage is migrated and holds that theme, and no class is repeated |
| UseTheme.ThemeHook.SetTheme | src/hooks/use-theme.ts:51-53 | a new theme is applied to the classes and persisted; setting the current theme changes nothing |
| TitleBar.PositionOf | src/components/ui/title-bar.tsx:51 | the position is -1 exactly when the theme is not listed, and otherwise the first position holding it |
| TitleBar.Cycle | src/components/ui/title-bar.tsx:49-54 | the next theme is always one of the three, and a name not in the list moves to light |
| TitleBar.CycleOrder | src/components/ui/title-bar.tsx:49-54 | the button goes from light to dark to gradient and back to light |
| TitleBar.CycleThrice | src/components/ui/title-bar.tsx:49-54 | three presses bring a listed theme back, and any name joins the cycle after one press |
| TitleBar.CycleMoves | src/components/ui/title-bar.tsx:49-54 | a press always changes the theme |
| TitleBar.IconsAndLabelsDistinct | src/components/ui/title-bar.tsx:56-76 | there is an icon and a label exactly for the three themes, and different themes get different icons and labels |
| ResizablePanel.Clamp | src/components/ui/resizable-panel.tsx:41 | with consistent bounds the size stays within them, a value inside them is kept, one below gives the minimum and one above gives the maximum; inconsistent bounds give the maximum |
| ResizablePanel.SizeMonotone | src/components/ui/resizable-panel.tsx:38-43 | moving the mouse further along the axis never makes the panel smaller |
| ResizablePanel.BackToPressRestores | src/components/ui/resizable-panel.tsx:38-43 | returning the mouse to the press position restores the size at the press, when that size is within bounds |
| ResizablePanel.Panel.constructor | src/components/ui/resizable-panel.tsx:15-26 | the panel starts at the default size 250 with bounds 150 and 500 unless given, not resizing |
| ResizablePanel.Panel.MouseDown | src/components/ui/resizable-panel.tsx:28-33 | a press starts resizing and records the mouse position on the axis and the current size |
| ResizablePanel.Panel.MouseMove | src/components/ui/resizable-panel.tsx:35-43 | while resizing a move sets the size from the press-time values and the mouse position alone, within bounds; otherwise nothing changes |
| ResizablePanel.Panel.MouseUp | src/components/ui/resizable-panel.tsx:45-47 | the release ends resizing and keeps the size |
| ApiSettingsHook.Merge | src/hooks/use-api-settings.ts:96 | every field of the merged settings comes from the partial when the partial has it, and otherwise from the old settings |
| ApiSettingsHook.MergeLaws | src/hooks/use-api-settings.ts:94-100 | two saves in a row equal one save of the combined partial, saving the same partial twice equals saving it once, and an empty partial changes nothing |
| ApiSettingsHook.Loaded | src/hooks/use-api-settings.ts:81-91 | missing or empty stored text, or text that does not parse, gives the defaults; otherwise the parsed object is spread over the defaults |
| ApiSettingsHook.LoadedFallsBack | src/hooks/use-api-settings.ts:21-26 | a provider type, key, URL or model missing from storage takes its default value (also line 85) |
| ApiSettingsHook.FirstSet | src/hooks/use-api-settings.ts:126-133 | the result is the fallback or a non-empty value of one of the keys; it is the first key's value when that is set, and the fallback when none is set |
| ApiSettingsHook.ProviderFor | src/hooks/use-api-settings.ts:136-137 | the provider is 'thirdparty' exactly for a non-empty base URL that does not contain api.anthropic.com, and 'anthropic' otherwise |
| ApiSettingsHook.ConfigPatch | src/hooks/use-api-settings.ts:124-145 | the saved partial carries the key, URL and model from the configuration, the provider for that URL, and the configuration path unless it is empty |
| ApiSettingsHook.ConfigPrecedence | src/hooks/use-api-settings.ts:126-133 | the auth token wins over the API key, and a configuration without any model keeps the current default model |
| ApiSettingsHook.CheckClaudeCode | src/hooks/use-api-settings.ts:108-118 | Claude Code is found exactly when Electron is present and a non-empty path came back, and then the path is reported |
| ApiSettingsHook.ApiSettingsStore.constructor | src/hooks/use-api-settings.ts:77-78 | the hook starts on the defaults, not loaded |
| ApiSettingsHook.ApiSettingsStore.Load | src/hooks/use-api-settings.ts:81-91 | the mount effect marks the settings loaded and sets them to the parsed stored object over the defaults when there is one; otherwise they are unchanged |
| ApiSettingsHook.ApiSettingsStore.SaveSettings | src/hooks/use-api-settings.ts:94-100 | a save merges the partial into the settings and stores the result |
| ApiSettingsHook.ApiSettingsStore.ClearSettings | src/hooks/use-api-settings.ts:102-105 | a clear removes the stored entry and returns to the defaults |
| ApiSettingsHook.ApiSettingsStore.LoadClaudeCodeConfig | src/hooks/use-api-settings.ts:120-153 | a reply with an env saves ConfigPatch of it with the current model as the fallback; no Electron, a failed call or a reply without an env changes nothing |

## Left out

- The Electron shell is not modelled: windows, tray, shortcuts, header rewriting, dialogs, file-system IPC handlers, the PTY and the window buttons of the title bar. These are I/O and OS integration.
- Network I/O (`fetch`, the `api:fetch` proxy) and UTF-8 `TextDecoder` streaming are left out. Response bodies are sequences of already-decoded string chunks.
- The Agent SDK `query` process is foreign code. Its output is a list of tagged SDK events.
- Timers and promises are not modelled as concurrency. The 5-minute permission time-out, resolution by the user and stop are explicit method calls in sequence.
- Reading `~/.claude/settings.json` is file I/O. Only the precedence over an already-parsed `env` map is modelled, and a failed read is `None`.
- Skill directory scanning (electron/main.ts:747-811) is not modelled: it walks the file system and parses front matter. Its result enters the model as the batch given to `addSkillsBatch`.
- Dollar cost arithmetic and `toFixed` are floating point. Only the integer token counts are kept.
- Ids from `Date.now()` and `Math.random()` are parameters or come from counters. Ids are assumed not to collide.
- UseConversations.NewConversation: one `now` gives the id and both stamps, while `createConversation` (src/hooks/use-conversations.ts:41-46) reads `Date.now()` three times, so the source's stamps can differ from the id by the milliseconds between the reads.
- UseSkills.SkillStore.AddSkillsBatch: one `now` gives every `local-<now>-<i>` id, while the source (src/hooks/use-skills.ts:153) reads `Date.now()` once per added skill; the ids differ by index either way.
- UseChat.AgentTurn: one `now` gives both ids and stamps, while `sendAgentMessage` (src/hooks/use-chat.ts:398-411) reads `Date.now()` for each of them.
- `localStorage` is a map from key to value. `JSON.parse` is a parameter returning an `Option`, and `JSON.stringify` is left out: stored values are kept as values.
- `localeCompare` is modelled as code-unit order of the names.
- `toLowerCase` is modelled on ASCII letters only.
- The JavaScript regular-expression engine is not modelled. The expressions of `parseToolCalls` and the `file_context` rewrite are explicit scanners for the shapes they match.
- Mouse positions of the resizable panel are whole pixels.
- The IPC bridge (electron/preload.ts) is modelled only for the stream id that `startAgent` forwards. `stopAgent` passing no id reaches the main-process handler as an unknown id, which that handler's model already covers.
- src/lib/db.ts is not part of this model: it only wraps calls to endpoints outside this repository.
- Rendering, icons, layout, focus handling and build configuration are left out. This covers the settings panel, the page, terminal, model and mode selectors, file preview, the interactive tool block, the layout, the Next configuration and the build script.
- `handleReject` of the chat message (src/components/chat/chat-message.tsx:116-118) is left out: it only reports the tool id with `false` to its callback.
- The file tree's context menu (delete, copy path; src/components/sidebar/file-tree.tsx:162-193) is left out: it calls file-system IPC handlers.
- The sidebar's click on a conversation is left out: it only reports the conversation's id to the parent.
- `atob` in the chat view's drop and picker handlers is a parameter. In the file panel's `handleSelectFile` it is a parameter that may fail, for text that is not base64.
- String lengths and cuts count Dafny characters (code points), while JavaScript's `.length` and `slice` count UTF-16 code units. Text outside the Basic Multilingual Plane therefore counts once here and twice in the source. This affects every length-based cut and count: `UseChat.EstimateTokens`, the 2000-character cut of `UseChat.ToolResultFence`, `FilePanel.PreviewText` and `FilePanel.Remaining`, and the 3000-character cuts of `MainAgent.ToolResultText`.
- The parameters of a parsed tool call keep insertion order. `Object.values` lists integer-like keys first, in ascending numeric order, so `ChatMessage.CommandOf` can take a different first value from the source when a parameter name is an integer such as "0".
- Aborting the chat request of `sendMessage` in `stopGenerating` (src/hooks/use-chat.ts:49-51) is left out with the request itself, which is network I/O.

## Findings

| source | as written | input that shows it | evidently intended | confidence | as-written member | corrected member |
|---|---|---|---|---|---|---|
| src/lib/claude-api.ts:366-367 | `chatStream` splits each chunk on '\n' separately and keeps no carry buffer, so a line split across two reads is decoded as two broken lines | the body `data: {…"Hi"…}\n` read as one chunk yields "Hi"; read as `data: ` and the rest, it yields "" | keep the text after the last '\n' for the next read, as the main process and the chat panel do, so the result does not depend on the chunk split | not executed | ClaudeApi.ReadUnbuffered, ClaudeApi.UnbufferedDependsOnSplit, ClaudeApi.ChatStream | ClaudeApi.ReadBuffered, ClaudeApi.BufferedSplitIndependent, ClaudeApi.ChatStreamFixed |
| src/lib/store.ts:51-58 | `deleteConversation` removes the conversation from the list first; `deleteMessage` then rewrites only conversations still in the list, so the deleted conversation's message entry stays in storage | conversation "1" holding message "m": after `deleteConversation("1")` the entry "1" still holds [m] | remove the conversation's message entry with it, as `clearMessages` does | not executed | Store.Storage.DeleteConversation, Store.DeletedMessagesRemain | Store.Storage.DeleteConversationAndMessages |
| electron/preload.ts:73-76 | `startAgent` does not forward the renderer's stream id, so the main process runs the session under `agent-<digits>`, while the hook filters chunks on `agent-stream-<n>` | any agent send: every chunk carries an id that differs from the hook's, so each one is discarded | forward the stream id, so the chunks of a session carry the hook's own id | not executed | Preload.ForwardedStreamId, Preload.StartAgentDropsChunks | Preload.ForwardedStreamIdFixed, Preload.StartAgentFixedDelivers |
| src/lib/claude-api.ts:126-143 | `getEndpoint` sends a base URL containing '/anthropic' but not 'minimax' to `/v1/chat/completions`, while the headers treat the same request as Anthropic-compatible | a third-party provider with base URL `https://api.moonshot.cn/anthropic` gets `x-api-key` but is posted to `/v1/chat/completions` | use `/v1/messages` exactly for Anthropic-compatible requests | not executed | ClaudeApi.GetEndpoint, ClaudeApi.EndpointDisagreesWithCompatibility, ClaudeApi.ChatRequest, ClaudeApi.ChatRequestMisroutes | ClaudeApi.CompatibleEndpoint, ClaudeApi.CompatibleEndpointMatchesHeaders, ClaudeApi.ChatRequestFixed |
| src/components/sidebar/sidebar.tsx:46-51 | `handleDelete` falls back to `conversations[0]` of the list as it was before the delete | deleting the selected conversation when it is first in the list selects its id again | fall back to the first conversation that remains, or '' | not executed | Sidebar.SelectionAfterDelete, Sidebar.SelectionAfterDeleteKeepsDeleted | Sidebar.SelectionAfterDeleteFixed, Sidebar.SelectionAfterDeleteFixedRemains |
