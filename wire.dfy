/**
 * The JSON objects the chat code reads from provider responses, reduced to the
 * fields it looks at. `JSON.parse` itself is not modelled: callers receive it as
 * a function `string -> Option<...>`, `None` standing for a thrown parse error
 * (or for a payload such as `null` whose field access would throw).
 */
module Wire {
  import opened Wrappers

  /** A `usage` object as sent on the wire, keyed by its snake_case names. */
  type Usage = map<string, int>

  /** `usage[key] || 0` */
  function UsageCount(u: Usage, key: string): int {
    if key in u && u[key] != 0 then u[key] else 0
  }

  /** `o || d` for a string field that may be missing. */
  function StringOr(o: Option<string>, d: string): (r: string)
    ensures o.Some? && o.value != "" ==> r == o.value
    ensures (o.None? || o.value == "") ==> r == d
  {
    if o.Some? && o.value != "" then o.value else d
  }

  /** A string field is truthy: present and non-empty. */
  predicate Truthy(o: Option<string>) {
    o.Some? && o.value != ""
  }

  /** The `delta` object of a streaming event. */
  datatype Delta = Delta(deltaType: Option<string>, text: Option<string>)

  /**
   * One `data: ` payload of a streaming response, after `JSON.parse`:
   * Anthropic Messages events (`type`, `delta`, `usage`, `message.usage`) and
   * OpenAI-style chunks (`choices[0].delta.content`, `choices[0].message.content`).
   */
  datatype Event = Event(
    eventType: Option<string>,
    delta: Option<Delta>,
    usage: Option<Usage>,
    messageUsage: Option<Usage>,
    choiceDeltaContent: Option<string>,
    choiceMessageContent: Option<string>)
  {
    predicate IsType(t: string) {
      eventType == Some(t)
    }

    /** `event.delta?.text` */
    function DeltaText(): Option<string> {
      if delta.Some? then delta.value.text else None
    }
  }

  /** An element of a Messages API `content` array. */
  datatype ContentBlock = ContentBlock(blockType: Option<string>, text: Option<string>)

  /** `choices[0]` of an OpenAI-style completion. */
  datatype Choice = Choice(role: Option<string>, messageContent: Option<string>, finishReason: Option<string>)

  /** A complete (non-streaming) response body, after `JSON.parse`. */
  datatype ResponseJson = ResponseJson(
    id: Option<string>,
    responseType: Option<string>,
    role: Option<string>,
    content: Option<seq<ContentBlock>>,
    model: Option<string>,
    stopReason: Option<string>,
    usage: Option<Usage>,
    choice: Option<Choice>,
    errorMessage: Option<string>,
    errorType: Option<string>,
    message: Option<string>)

  /** The index of the first block whose `type` is 'text' (`content.find(c => c.type === 'text')`). */
  function FirstTextBlock(blocks: seq<ContentBlock>): (r: Option<nat>)
    ensures r.Some? ==> r.value < |blocks| && blocks[r.value].blockType == Some("text")
    ensures r.Some? ==> forall k :: 0 <= k < r.value ==> blocks[k].blockType != Some("text")
    ensures r.None? ==> forall k :: 0 <= k < |blocks| ==> blocks[k].blockType != Some("text")
  {
    if |blocks| == 0 then None
    else if blocks[0].blockType == Some("text") then Some(0)
    else
      match FirstTextBlock(blocks[1..])
      case None => None
      case Some(k) => Some(k + 1)
  }
}
