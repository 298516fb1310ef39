/**
 * The part of the Electron bridge (electron/preload.ts) that links the
 * agent hook to the `api:agent` handler: which stream id reaches the main
 * process. The bridge's `startAgent` takes only the messages and the
 * settings, so the id the hook passes as a third argument is dropped.
 */
module Preload {
  import opened Wrappers
  import opened JsString
  import MainAgent
  import UseChat

  /** The stream id `startAgent` forwards, as written: none, which `api:agent` reads as empty. */
  function ForwardedStreamId(streamId: Option<string>): (r: string)
    ensures r == ""
  {
    ""
  }

  /** The evident intent: the id the hook passed, forwarded unchanged. */
  function ForwardedStreamIdFixed(streamId: Option<string>): (r: string)
    ensures streamId.Some? ==> r == streamId.value
    ensures streamId.None? ==> r == ""
  {
    streamId.GetOr("")
  }

  /**
   * As written, the main process runs the session under `agent-<now>`, which
   * never equals the hook's `agent-stream-<now>`: the hook discards every
   * chunk of its own session.
   */
  lemma StartAgentDropsChunks(rendererNow: nat, mainNow: nat, kind: MainAgent.ChunkKind)
    ensures var rid := UseChat.AgentStreamId(rendererNow);
      var mid := MainAgent.SessionId(ForwardedStreamId(Some(rid)), mainNow);
      mid != rid && !UseChat.Accepts(rid, MainAgent.AgentChunk(Some(mid), kind))
  {
    var rid := UseChat.AgentStreamId(rendererNow);
    var mid := MainAgent.SessionId("", mainNow);
    assert rid[6] == 's' by {
      assert rid == "agent-stream-" + NatToString(rendererNow);
    }
    assert IsDigit(mid[6]);
  }

  /** Forwarded, the id the hook chose is the session's, and every chunk it is sent is kept. */
  lemma StartAgentFixedDelivers(rendererNow: nat, mainNow: nat, kind: MainAgent.ChunkKind)
    ensures var rid := UseChat.AgentStreamId(rendererNow);
      var mid := MainAgent.SessionId(ForwardedStreamIdFixed(Some(rid)), mainNow);
      mid == rid && UseChat.Accepts(rid, MainAgent.AgentChunk(Some(mid), kind))
  {
    var rid := UseChat.AgentStreamId(rendererNow);
    assert rid != "" by {
      assert StartsWith(rid, "agent-stream-");
    }
  }
}
