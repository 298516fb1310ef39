/**
 * The conversations hook (src/hooks/use-conversations.ts): the list of
 * conversations held in component state and written through to the
 * `codenova_conversations` entry of the local store on every change.
 * `Date.now()` is the parameter `now`.
 */
module UseConversations {
  import opened Wrappers
  import opened JsString
  import opened Store

  const DefaultTitle := "新对话"

  /**
   * A `Partial<Conversation>`: a present field overwrites. `updatedAt` is
   * absent because the update always stamps it afterwards.
   */
  datatype Patch = Patch(
    id: Option<string>, title: Option<string>, model: Option<string>, mode: Option<string>,
    directory: Option<string>, createdAt: Option<int>, archived: Option<bool>)

  /** `{ ...c, ...updates }` */
  function Apply(c: Conversation, p: Patch): (r: Conversation)
    ensures r.id == p.id.GetOr(c.id) && r.title == p.title.GetOr(c.title)
    ensures r.model == p.model.GetOr(c.model) && r.mode == p.mode.GetOr(c.mode)
    ensures r.directory == (if p.directory.Some? then p.directory else c.directory)
    ensures r.createdAt == p.createdAt.GetOr(c.createdAt) && r.archived == p.archived.GetOr(c.archived)
    ensures r.updatedAt == c.updatedAt
  {
    Conversation(
      p.id.GetOr(c.id), p.title.GetOr(c.title), p.model.GetOr(c.model), p.mode.GetOr(c.mode),
      if p.directory.Some? then p.directory else c.directory,
      p.createdAt.GetOr(c.createdAt), c.updatedAt, p.archived.GetOr(c.archived))
  }

  /** The conversation `createConversation` makes: an empty or missing title becomes the default. */
  function NewConversation(title: Option<string>, now: nat): (r: Conversation)
    ensures r.id == NatToString(now) && r.title != "" && !r.archived
    ensures r.title == (if title.Some? && title.value != "" then title.value else DefaultTitle)
    ensures r.model == "sonnet" && r.mode == "chat" && r.directory.None?
    ensures r.createdAt == now && r.updatedAt == now
  {
    var t := if title.Some? && title.value != "" then title.value else DefaultTitle;
    Conversation(NatToString(now), t, "sonnet", "chat", None, now, now, false)
  }

  /** Conversations created at different times have different ids. */
  lemma NewConversationIdsDiffer(t1: Option<string>, t2: Option<string>, now1: nat, now2: nat)
    requires now1 != now2
    ensures NewConversation(t1, now1).id != NewConversation(t2, now2).id
  {
    if NatToString(now1) == NatToString(now2) {
      NatToStringInjective(now1, now2);
    }
  }

  /** `prev.map(c => c.id === id ? { ...c, ...updates, updatedAt: now } : c)` */
  function Updated(l: seq<Conversation>, id: string, p: Patch, now: int): (r: seq<Conversation>)
    ensures |r| == |l|
    ensures forall k :: 0 <= k < |l| && l[k].id != id ==> r[k] == l[k]
    ensures forall k :: 0 <= k < |l| && l[k].id == id ==> r[k] == Apply(l[k], p).(updatedAt := now)
  {
    seq(|l|, k requires 0 <= k < |l| => if l[k].id == id then Apply(l[k], p).(updatedAt := now) else l[k])
  }

  /** An id no conversation has leaves the list as it was. */
  lemma UpdatedAbsent(l: seq<Conversation>, id: string, p: Patch, now: int)
    requires id !in IdsOf(l)
    ensures Updated(l, id, p, now) == l
  {
    var r := Updated(l, id, p, now);
    forall k | 0 <= k < |l|
      ensures r[k] == l[k]
    {
      assert l[k].id in IdsOf(l);
    }
  }

  /** Applying the same update twice is applying it once, whether or not the patch renames the id. */
  lemma UpdatedIdempotent(l: seq<Conversation>, id: string, p: Patch, now: int)
    ensures Updated(Updated(l, id, p, now), id, p, now) == Updated(l, id, p, now)
  {
    var r1 := Updated(l, id, p, now);
    var r2 := Updated(r1, id, p, now);
    forall k | 0 <= k < |l|
      ensures r2[k] == r1[k]
    {
      if l[k].id == id && r1[k].id == id {
        assert r1[k] == Apply(l[k], p).(updatedAt := now);
      }
    }
  }

  /** A patch without an id keeps the set of ids. */
  lemma UpdatedKeepsIds(l: seq<Conversation>, id: string, p: Patch, now: int)
    requires p.id.None?
    ensures IdsOf(Updated(l, id, p, now)) == IdsOf(l)
  {
    var r := Updated(l, id, p, now);
    assert forall k :: 0 <= k < |l| ==> r[k].id == l[k].id;
    forall x | x in IdsOf(l)
      ensures x in IdsOf(r)
    {
      var k :| 0 <= k < |l| && l[k].id == x;
      assert r[k].id == x;
    }
  }

  /** `conversations.map(c => c.id === id ? { ...c, archived: !c.archived, updatedAt: now } : c)` */
  function Toggled(l: seq<Conversation>, id: string, now: int): (r: seq<Conversation>)
    ensures |r| == |l|
    ensures forall k :: 0 <= k < |l| ==> r[k].id == l[k].id
    ensures forall k :: 0 <= k < |l| ==> (r[k].archived != l[k].archived <==> l[k].id == id)
    ensures forall k :: 0 <= k < |l| && l[k].id != id ==> r[k] == l[k]
  {
    seq(|l|, k requires 0 <= k < |l| => if l[k].id == id then l[k].(archived := !l[k].archived, updatedAt := now) else l[k])
  }

  /** Only the time stamp of the matching conversations changes. */
  function Stamped(l: seq<Conversation>, id: string, now: int): (r: seq<Conversation>)
    ensures |r| == |l|
  {
    seq(|l|, k requires 0 <= k < |l| => if l[k].id == id then l[k].(updatedAt := now) else l[k])
  }

  /** Archiving twice restores every `archived` flag: only the last time stamp stays. */
  lemma ToggledTwice(l: seq<Conversation>, id: string, t1: int, t2: int)
    ensures Toggled(Toggled(l, id, t1), id, t2) == Stamped(l, id, t2)
  {
    var r := Toggled(Toggled(l, id, t1), id, t2);
    var s := Stamped(l, id, t2);
    forall k | 0 <= k < |l|
      ensures r[k] == s[k]
    {
    }
  }

  /** The hook's state, writing through to the store it is given. */
  class Conversations {
    var conversations: seq<Conversation>
    const storage: Storage

    /** `useState<Conversation[]>([])` */
    constructor (storage: Storage)
      ensures conversations == [] && this.storage == storage
    {
      conversations := [];
      this.storage := storage;
    }

    /** The mount effect: a stored list replaces the state; nothing stored leaves it. */
    method Load()
      modifies this
      ensures storage.conversations.Some? ==> conversations == storage.conversations.value
      ensures storage.conversations.None? ==> conversations == old(conversations)
    {
      if storage.conversations.Some? {
        conversations := storage.conversations.value;
      }
    }

    /** `saveConversations`: the list is stored and becomes the state; nothing else in the store changes. */
    method Save(convs: seq<Conversation>)
      modifies this, storage
      ensures conversations == convs && storage.conversations == Some(convs)
      ensures storage.messages == old(storage.messages) && storage.settings == old(storage.settings)
      ensures storage.tokenStats == old(storage.tokenStats)
    {
      storage.conversations := Some(convs);
      conversations := convs;
    }

    /** `createConversation`: the new conversation goes first and is returned. */
    method Create(title: Option<string>, now: nat) returns (c: Conversation)
      modifies this, storage
      ensures c == NewConversation(title, now)
      ensures conversations == [c] + old(conversations) && storage.conversations == Some(conversations)
      ensures storage.messages == old(storage.messages) && storage.settings == old(storage.settings)
      ensures storage.tokenStats == old(storage.tokenStats)
    {
      c := NewConversation(title, now);
      Save([c] + conversations);
    }

    /** `updateConversation`: every conversation with the id takes the patch and the time stamp. */
    method Update(id: string, p: Patch, now: int)
      modifies this, storage
      ensures conversations == Updated(old(conversations), id, p, now)
      ensures storage.conversations == Some(conversations)
      ensures storage.messages == old(storage.messages) && storage.settings == old(storage.settings)
      ensures storage.tokenStats == old(storage.tokenStats)
    {
      Save(Updated(conversations, id, p, now));
    }

    /** `archiveConversation`: the flag of every conversation with the id flips. */
    method Archive(id: string, now: int)
      modifies this, storage
      ensures conversations == Toggled(old(conversations), id, now)
      ensures storage.conversations == Some(conversations)
      ensures storage.messages == old(storage.messages) && storage.settings == old(storage.settings)
      ensures storage.tokenStats == old(storage.tokenStats)
    {
      Save(Toggled(conversations, id, now));
    }

    /** `deleteConversation`: the conversation goes, and so does its `codenova_messages_<id>` entry. */
    method Delete(id: string)
      modifies this, storage
      ensures conversations == RemoveId(old(conversations), id)
      ensures storage.conversations == Some(conversations)
      ensures storage.messages == old(storage.messages) - {id} && id !in storage.messages
      ensures storage.settings == old(storage.settings) && storage.tokenStats == old(storage.tokenStats)
    {
      Save(RemoveId(conversations, id));
      storage.ClearMessages(id);
    }
  }
}
