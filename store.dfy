/**
 * The local store (src/lib/store.ts): conversations under
 * `codenova_conversations`, each conversation's messages under
 * `codenova_messages_<id>`, the settings under `codenova_settings` and token
 * statistics under `codenova_tokens_<id>`. The storage is a class whose fields
 * are those entries (the JSON text of each is its value); `None`, or a key
 * missing from a map, is an entry never written.
 */
module Store {
  import opened Wrappers

  datatype Conversation = Conversation(
    id: string, title: string, model: string, mode: string, directory: Option<string>,
    createdAt: int, updatedAt: int, archived: bool)

  datatype Message = Message(id: string, conversationId: string, role: string, content: string, createdAt: int)

  /** The stored settings; every field is optional (`None` is an absent key). */
  datatype Settings = Settings(
    apiKey: Option<string>, baseUrl: Option<string>, defaultModel: Option<string>,
    theme: Option<string>, fontSize: Option<int>, codeFont: Option<string>)

  const DefaultSettings := Settings(None, None, Some("sonnet"), Some("light"), Some(14), Some("JetBrains Mono"))

  /** `{ ...current, ...partial }`: a field present in the partial wins. */
  function Merge(current: Settings, partial: Settings): (r: Settings)
    ensures partial.apiKey.Some? ==> r.apiKey == partial.apiKey
    ensures partial.apiKey.None? ==> r.apiKey == current.apiKey
    ensures partial.baseUrl.Some? ==> r.baseUrl == partial.baseUrl
    ensures partial.baseUrl.None? ==> r.baseUrl == current.baseUrl
    ensures partial.defaultModel.Some? ==> r.defaultModel == partial.defaultModel
    ensures partial.defaultModel.None? ==> r.defaultModel == current.defaultModel
    ensures partial.theme.Some? ==> r.theme == partial.theme
    ensures partial.theme.None? ==> r.theme == current.theme
    ensures partial.fontSize.Some? ==> r.fontSize == partial.fontSize
    ensures partial.fontSize.None? ==> r.fontSize == current.fontSize
    ensures partial.codeFont.Some? ==> r.codeFont == partial.codeFont
    ensures partial.codeFont.None? ==> r.codeFont == current.codeFont
  {
    Settings(
      if partial.apiKey.Some? then partial.apiKey else current.apiKey,
      if partial.baseUrl.Some? then partial.baseUrl else current.baseUrl,
      if partial.defaultModel.Some? then partial.defaultModel else current.defaultModel,
      if partial.theme.Some? then partial.theme else current.theme,
      if partial.fontSize.Some? then partial.fontSize else current.fontSize,
      if partial.codeFont.Some? then partial.codeFont else current.codeFont)
  }

  /** Merging the same partial twice is merging it once, and an empty partial changes nothing. */
  lemma MergeIdempotent(current: Settings, partial: Settings)
    ensures Merge(Merge(current, partial), partial) == Merge(current, partial)
    ensures Merge(current, Settings(None, None, None, None, None, None)) == current
  {
  }

  datatype TokenStats = TokenStats(conversationId: string, inputTokens: int, outputTokens: int, totalCost: real)

  // ---------------------------------------------------------------------------
  // Conversation lists
  // ---------------------------------------------------------------------------

  /** `findIndex(c => c.id === id)`: the first position with that id. */
  function FindIndex(l: seq<Conversation>, id: string): (r: Option<nat>)
    ensures r.Some? ==> r.value < |l| && l[r.value].id == id && forall k :: 0 <= k < r.value ==> l[k].id != id
    ensures r.None? ==> forall k :: 0 <= k < |l| ==> l[k].id != id
    decreases |l|
  {
    if |l| == 0 then None
    else if l[0].id == id then Some(0)
    else match FindIndex(l[1..], id)
      case None => None
      case Some(k) => Some(k + 1)
  }

  /** `saveConversation`'s list: the first entry with the id replaced in place, else the conversation put in front. */
  function Upsert(l: seq<Conversation>, c: Conversation): (r: seq<Conversation>)
    ensures FindIndex(l, c.id).Some? ==> |r| == |l| && r == l[FindIndex(l, c.id).value := c]
    ensures FindIndex(l, c.id).None? ==> r == [c] + l
  {
    match FindIndex(l, c.id)
    case Some(i) => l[i := c]
    case None => [c] + l
  }

  /** After a save, looking the id up finds the saved conversation. */
  lemma UpsertFinds(l: seq<Conversation>, c: Conversation)
    ensures FindIndex(Upsert(l, c), c.id).Some?
    ensures var r := Upsert(l, c); r[FindIndex(r, c.id).value] == c
  {
    var r := Upsert(l, c);
    match FindIndex(l, c.id)
    case Some(i) =>
      assert FindIndex(r, c.id) == Some(i) by {
        FindIndexAt(r, c.id, i);
      }
    case None =>
      assert FindIndex(r, c.id) == Some(0);
  }

  lemma {:induction false} FindIndexAt(l: seq<Conversation>, id: string, i: nat)
    requires i < |l| && l[i].id == id && forall k :: 0 <= k < i ==> l[k].id != id
    ensures FindIndex(l, id) == Some(i)
    decreases i
  {
    if i > 0 {
      assert forall k :: 0 <= k < i - 1 ==> l[1..][k] == l[k + 1];
      FindIndexAt(l[1..], id, i - 1);
    }
  }

  /** Saving the same conversation twice is saving it once. */
  lemma UpsertIdempotent(l: seq<Conversation>, c: Conversation)
    ensures Upsert(Upsert(l, c), c) == Upsert(l, c)
  {
    UpsertFinds(l, c);
  }

  /** `filter(c => c.id !== id)` */
  function RemoveId(l: seq<Conversation>, id: string): (r: seq<Conversation>)
    ensures forall k :: 0 <= k < |r| ==> r[k].id != id && r[k] in l
    ensures forall k :: 0 <= k < |l| && l[k].id != id ==> l[k] in r
    decreases |l|
  {
    if |l| == 0 then []
    else
      var rest := RemoveId(l[1..], id);
      assert forall j :: 0 <= j < |l| - 1 ==> l[1..][j] == l[j + 1];
      if l[0].id == id then rest
      else
        var r := [l[0]] + rest;
        assert forall k :: 1 <= k < |r| ==> r[k] == rest[k - 1];
        r
  }

  function IdsOf(l: seq<Conversation>): set<string> {
    set k | 0 <= k < |l| :: l[k].id
  }

  /** `messages.filter(m => m.id !== id)` */
  function RemoveMessage(ms: seq<Message>, id: string): (r: seq<Message>)
    ensures forall k :: 0 <= k < |r| ==> r[k].id != id && r[k] in ms
    ensures forall k :: 0 <= k < |ms| && ms[k].id != id ==> ms[k] in r
    decreases |ms|
  {
    if |ms| == 0 then []
    else
      var rest := RemoveMessage(ms[1..], id);
      assert forall j :: 0 <= j < |ms| - 1 ==> ms[1..][j] == ms[j + 1];
      if ms[0].id == id then rest
      else
        var r := [ms[0]] + rest;
        assert forall k :: 1 <= k < |r| ==> r[k] == rest[k - 1];
        r
  }

  /** `getMessages`: the stored list, or none. */
  function MessagesIn(msgs: map<string, seq<Message>>, cid: string): seq<Message> {
    if cid in msgs then msgs[cid] else []
  }

  /** The `forEach` of `deleteMessage` from the conversation `convs[0]` on: each list rewritten without the message. */
  function RewriteAll(msgs: map<string, seq<Message>>, convs: seq<Conversation>, id: string): map<string, seq<Message>>
    decreases |convs|
  {
    if |convs| == 0 then msgs
    else RewriteAll(msgs[convs[0].id := RemoveMessage(MessagesIn(msgs, convs[0].id), id)], convs[1..], id)
  }

  /** A key that names none of the listed conversations is left as it was. */
  lemma {:induction false} RewriteKeepsOthers(msgs: map<string, seq<Message>>, convs: seq<Conversation>, id: string, key: string)
    requires key !in IdsOf(convs)
    ensures var r := RewriteAll(msgs, convs, id); (key in r <==> key in msgs) && (key in msgs ==> r[key] == msgs[key])
    decreases |convs|
  {
    if |convs| > 0 {
      assert convs[0].id in IdsOf(convs);
      assert IdsOf(convs[1..]) <= IdsOf(convs) by {
        forall x | x in IdsOf(convs[1..]) ensures x in IdsOf(convs) {
          var k :| 0 <= k < |convs| - 1 && convs[1..][k].id == x;
          assert convs[k + 1].id == x;
        }
      }
      RewriteKeepsOthers(msgs[convs[0].id := RemoveMessage(MessagesIn(msgs, convs[0].id), id)], convs[1..], id, key);
    }
  }

  /** After the rewrite, the list of every listed conversation is stored and holds no message with that id. */
  lemma {:induction false} RewriteRemoves(msgs: map<string, seq<Message>>, convs: seq<Conversation>, id: string)
    requires forall k :: k in msgs ==> forall j :: 0 <= j < |msgs[k]| ==> msgs[k][j].id != id || k in IdsOf(convs)
    ensures var r := RewriteAll(msgs, convs, id);
      forall k :: k in r ==> forall j :: 0 <= j < |r[k]| ==> r[k][j].id != id
    decreases |convs|
  {
    if |convs| > 0 {
      var m: map<string, seq<Message>> := msgs[convs[0].id := RemoveMessage(MessagesIn(msgs, convs[0].id), id)];
      forall k: string | k in m ensures forall j :: 0 <= j < |m[k]| ==> m[k][j].id != id || k in IdsOf(convs[1..]) {
        if k != convs[0].id {
          forall j | 0 <= j < |m[k]| && m[k][j].id == id ensures k in IdsOf(convs[1..]) {
            assert k in IdsOf(convs);
            var i :| 0 <= i < |convs| && convs[i].id == k;
            assert i > 0;
            assert convs[1..][i - 1].id == k;
          }
        }
      }
      RewriteRemoves(m, convs[1..], id);
      assert RewriteAll(msgs, convs, id) == RewriteAll(m, convs[1..], id);
    } else {
      assert forall x :: x !in IdsOf(convs);
    }
  }

  /** The `forEach` of `deleteConversation`: `deleteMessage` for each message id in turn. */
  function DeleteEach(msgs: map<string, seq<Message>>, convs: seq<Conversation>, ids: seq<string>): map<string, seq<Message>>
    decreases |ids|
  {
    if |ids| == 0 then msgs else DeleteEach(RewriteAll(msgs, convs, ids[0]), convs, ids[1..])
  }

  lemma {:induction false} DeleteEachKeepsOthers(msgs: map<string, seq<Message>>, convs: seq<Conversation>, ids: seq<string>, key: string)
    requires key !in IdsOf(convs)
    ensures var r := DeleteEach(msgs, convs, ids); (key in r <==> key in msgs) && (key in msgs ==> r[key] == msgs[key])
    decreases |ids|
  {
    if |ids| > 0 {
      RewriteKeepsOthers(msgs, convs, ids[0], key);
      DeleteEachKeepsOthers(RewriteAll(msgs, convs, ids[0]), convs, ids[1..], key);
    }
  }

  function MessageIds(ms: seq<Message>): (r: seq<string>)
    ensures |r| == |ms| && forall k :: 0 <= k < |ms| ==> r[k] == ms[k].id
  {
    seq(|ms|, k requires 0 <= k < |ms| => ms[k].id)
  }

  /** No conversation of `RemoveId(l, id)` has that id. */
  lemma RemovedIdAbsent(l: seq<Conversation>, id: string)
    ensures id !in IdsOf(RemoveId(l, id))
  {
  }

  // ---------------------------------------------------------------------------
  // The storage
  // ---------------------------------------------------------------------------

  class Storage {
    var conversations: Option<seq<Conversation>>
    var messages: map<string, seq<Message>>
    var settings: Option<Settings>
    var tokenStats: map<string, TokenStats>

    constructor ()
      ensures conversations.None? && messages == map[] && settings.None? && tokenStats == map[]
    {
      conversations := None;
      messages := map[];
      settings := None;
      tokenStats := map[];
    }

    /** `getConversations`: the stored list, or none. */
    function Conversations(): seq<Conversation>
      reads this
    {
      conversations.GetOr([])
    }

    function MessagesOf(cid: string): seq<Message>
      reads this
    {
      MessagesIn(messages, cid)
    }

    /** `getSettings`: the stored settings, or the fixed defaults. */
    function GetSettings(): (s: Settings)
      reads this
      ensures settings.None? ==> s == DefaultSettings
    {
      settings.GetOr(DefaultSettings)
    }

    /** `getTokenStats`: what was saved for that id, or `null`. */
    function GetTokenStats(cid: string): (r: Option<TokenStats>)
      reads this
      ensures r.Some? <==> cid in tokenStats
      ensures r.Some? ==> r.value == tokenStats[cid]
    {
      if cid in tokenStats then Some(tokenStats[cid]) else None
    }

    method SaveConversation(c: Conversation)
      modifies this
      ensures conversations == Some(Upsert(old(Conversations()), c))
      ensures messages == old(messages) && settings == old(settings) && tokenStats == old(tokenStats)
    {
      var list := Conversations();
      var index := FindIndex(list, c.id);
      if index.Some? {
        list := list[index.value := c];
      } else {
        list := [c] + list;
      }
      conversations := Some(list);
    }

    /** `archiveConversation`: the first conversation with the id flips `archived` and takes the time `now`; an unknown id writes nothing. */
    method ArchiveConversation(id: string, now: int)
      modifies this
      ensures FindIndex(old(Conversations()), id).None? ==> conversations == old(conversations)
      ensures FindIndex(old(Conversations()), id).Some? ==>
        var i := FindIndex(old(Conversations()), id).value;
        var c := old(Conversations())[i];
        conversations == Some(old(Conversations())[i := c.(archived := !c.archived, updatedAt := now)])
      ensures messages == old(messages) && settings == old(settings) && tokenStats == old(tokenStats)
    {
      var list := Conversations();
      var index := FindIndex(list, id);
      if index.Some? {
        var conversation := list[index.value];
        conversation := conversation.(archived := !conversation.archived, updatedAt := now);
        SaveConversation(conversation);
      }
    }

    /** `saveMessage`: appended to the end of its conversation's list. */
    method SaveMessage(m: Message)
      modifies this
      ensures messages == old(messages)[m.conversationId := old(MessagesOf(m.conversationId)) + [m]]
      ensures conversations == old(conversations) && settings == old(settings) && tokenStats == old(tokenStats)
    {
      var list := MessagesOf(m.conversationId);
      messages := messages[m.conversationId := list + [m]];
    }

    /** `deleteMessage`: the list of every listed conversation is rewritten without that message. */
    method DeleteMessage(id: string)
      modifies this
      ensures messages == RewriteAll(old(messages), old(Conversations()), id)
      ensures conversations == old(conversations) && settings == old(settings) && tokenStats == old(tokenStats)
    {
      var convs := Conversations();
      var i := 0;
      while i < |convs|
        invariant 0 <= i <= |convs|
        invariant RewriteAll(old(messages), convs, id) == RewriteAll(messages, convs[i..], id)
        invariant conversations == old(conversations) && settings == old(settings) && tokenStats == old(tokenStats)
      {
        var conv := convs[i];
        assert convs[i..][0] == conv && convs[i..][1..] == convs[i + 1..];
        var kept := RemoveMessage(MessagesOf(conv.id), id);
        messages := messages[conv.id := kept];
        i := i + 1;
      }
    }

    /**
     * `deleteConversation` as written: the conversation leaves the list first,
     * then `deleteMessage` runs for each of its messages, over the remaining
     * conversations only.
     */
    method DeleteConversation(id: string)
      modifies this
      ensures conversations == Some(RemoveId(old(Conversations()), id))
      ensures messages == DeleteEach(old(messages), RemoveId(old(Conversations()), id), MessageIds(old(MessagesOf(id))))
      ensures settings == old(settings) && tokenStats == old(tokenStats)
    {
      var remaining := RemoveId(Conversations(), id);
      conversations := Some(remaining);
      var ms := MessagesOf(id);
      ghost var ids := MessageIds(ms);
      var i := 0;
      while i < |ms|
        invariant 0 <= i <= |ms|
        invariant conversations == Some(remaining)
        invariant DeleteEach(old(messages), remaining, ids) == DeleteEach(messages, remaining, ids[i..])
        invariant settings == old(settings) && tokenStats == old(tokenStats)
      {
        assert ids[i..][0] == ms[i].id && ids[i..][1..] == ids[i + 1..];
        DeleteMessage(ms[i].id);
        i := i + 1;
      }
    }

    /** The intended `deleteConversation`: the conversation and its message entry both go. */
    method DeleteConversationAndMessages(id: string)
      modifies this
      ensures conversations == Some(RemoveId(old(Conversations()), id))
      ensures id !in messages && messages == old(messages) - {id}
      ensures settings == old(settings) && tokenStats == old(tokenStats)
    {
      conversations := Some(RemoveId(Conversations(), id));
      ClearMessages(id);
    }

    /** `clearMessages`: only that conversation's key is removed. */
    method ClearMessages(cid: string)
      modifies this
      ensures messages == old(messages) - {cid}
      ensures conversations == old(conversations) && settings == old(settings) && tokenStats == old(tokenStats)
    {
      messages := messages - {cid};
    }

    /** `saveSettings`: the partial merged over the current (or default) settings. */
    method SaveSettings(partial: Settings)
      modifies this
      ensures settings == Some(Merge(old(GetSettings()), partial))
      ensures conversations == old(conversations) && messages == old(messages) && tokenStats == old(tokenStats)
    {
      var current := GetSettings();
      settings := Some(Merge(current, partial));
    }

    method SaveTokenStats(cid: string, stats: TokenStats)
      modifies this
      ensures tokenStats == old(tokenStats)[cid := stats]
      ensures conversations == old(conversations) && messages == old(messages) && settings == old(settings)
    {
      tokenStats := tokenStats[cid := stats];
    }
  }

  /** What `deleteConversation` leaves behind: the deleted conversation's own message entry, untouched. */
  lemma DeletedMessagesRemain(msgs: map<string, seq<Message>>, convs: seq<Conversation>, id: string)
    requires id in msgs
    ensures var r := DeleteEach(msgs, RemoveId(convs, id), MessageIds(MessagesIn(msgs, id)));
      id in r && r[id] == msgs[id]
  {
    RemovedIdAbsent(convs, id);
    DeleteEachKeepsOthers(msgs, RemoveId(convs, id), MessageIds(MessagesIn(msgs, id)), id);
  }

  /** A conversation with one message: after `deleteConversation` the message is still stored. */
  lemma DeletedMessageExample()
    ensures var c := Conversation("1", "新对话", "sonnet", "chat", None, 0, 0, false);
      var m := Message("m", "1", "user", "hi", 0);
      var r := DeleteEach(map["1" := [m]], RemoveId([c], "1"), MessageIds([m]));
      "1" in r && r["1"] == [m]
  {
    var c := Conversation("1", "新对话", "sonnet", "chat", None, 0, 0, false);
    var m := Message("m", "1", "user", "hi", 0);
    DeletedMessagesRemain(map["1" := [m]], [c], "1");
  }
}
