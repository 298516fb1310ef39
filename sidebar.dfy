/**
 * The simple sidebar (src/components/sidebar/sidebar.tsx): its own list of
 * conversations in component state, split into active and archived ones,
 * with new, archive, restore and delete. The selection belongs to the
 * parent; `onSelect` is modelled as the id the operation reports
 * (`None` when it reports none). `Date.now()` is the parameter `now`.
 */
module Sidebar {
  import opened Wrappers
  import opened JsString

  /** The sidebar's own conversation record. */
  datatype Item = Item(id: string, title: string, updatedAt: int, archived: bool)

  const NewTitle := "新对话"
  const InitialTitle := "新建对话"

  /** `conversations.filter(c => !c.archived)` */
  function Active(l: seq<Item>): (r: seq<Item>)
    ensures forall x :: x in r <==> x in l && !x.archived
    ensures |r| <= |l|
  {
    if |l| == 0 then []
    else (if l[0].archived then [] else [l[0]]) + Active(l[1..])
  }

  /** `conversations.filter(c => c.archived)` */
  function Archived(l: seq<Item>): (r: seq<Item>)
    ensures forall x :: x in r <==> x in l && x.archived
    ensures |r| <= |l|
  {
    if |l| == 0 then []
    else (if l[0].archived then [l[0]] else []) + Archived(l[1..])
  }

  /** The two lists share out the conversations: together they hold each one exactly as often as the list does. */
  lemma {:induction false} ActiveArchivedPartition(l: seq<Item>)
    ensures multiset(Active(l)) + multiset(Archived(l)) == multiset(l)
    ensures |Active(l)| + |Archived(l)| == |l|
  {
    if |l| > 0 {
      ActiveArchivedPartition(l[1..]);
      assert l == [l[0]] + l[1..];
    }
  }

  /** `c.id === id ? { ...c, archived, updatedAt: now } : c` over the list. */
  function SetArchived(l: seq<Item>, id: string, archived: bool, now: int): (r: seq<Item>)
    ensures |r| == |l|
    ensures forall k :: 0 <= k < |l| ==> r[k].id == l[k].id && r[k].title == l[k].title
    ensures forall k :: 0 <= k < |l| && l[k].id != id ==> r[k] == l[k]
    ensures forall k :: 0 <= k < |l| && l[k].id == id ==> r[k].archived == archived
  {
    seq(|l|, k requires 0 <= k < |l| => if l[k].id == id then l[k].(archived := archived, updatedAt := now) else l[k])
  }

  /** Archiving moves the conversation out of the active list; restoring brings it back out of the archived list. */
  lemma SetArchivedMoves(l: seq<Item>, id: string, archived: bool, now: int)
    ensures archived ==> forall x :: x in Active(SetArchived(l, id, archived, now)) ==> x.id != id
    ensures !archived ==> forall x :: x in Archived(SetArchived(l, id, archived, now)) ==> x.id != id
  {
    var r := SetArchived(l, id, archived, now);
    forall x | x in r
      ensures x.id == id ==> x.archived == archived
    {
      var k :| 0 <= k < |r| && r[k] == x;
    }
  }

  /** Restoring after archiving gives back every flag and title; only time stamps of that id move. */
  lemma RestoreAfterArchive(l: seq<Item>, id: string, t1: int, t2: int)
    requires forall k :: 0 <= k < |l| && l[k].id == id ==> !l[k].archived
    ensures var r := SetArchived(SetArchived(l, id, true, t1), id, false, t2);
      |r| == |l| && forall k :: 0 <= k < |l| ==> r[k] == (if l[k].id == id then l[k].(updatedAt := t2) else l[k])
  {
  }

  /** `filter(c => c.id !== id)` */
  function Without(l: seq<Item>, id: string): (r: seq<Item>)
    ensures forall x :: x in r <==> x in l && x.id != id
  {
    if |l| == 0 then []
    else (if l[0].id == id then [] else [l[0]]) + Without(l[1..], id)
  }

  /**
   * What `handleDelete` passes to `onSelect`: nothing unless the deleted
   * conversation was selected, and then `conversations[0]?.id || ''` of the
   * list as it was before the delete.
   */
  function SelectionAfterDelete(l: seq<Item>, id: string, selectedId: Option<string>): (r: Option<string>)
    ensures r.Some? <==> selectedId == Some(id)
    ensures r.Some? && |l| > 0 ==> r.value == l[0].id
    ensures r.Some? && |l| == 0 ==> r.value == ""
  {
    if selectedId == Some(id) then Some(if |l| > 0 then l[0].id else "") else None
  }

  /** Deleting the selected conversation when it is the first one selects it again, though it is gone. */
  lemma SelectionAfterDeleteKeepsDeleted(l: seq<Item>, id: string)
    requires |l| > 0 && l[0].id == id
    ensures SelectionAfterDelete(l, id, Some(id)) == Some(id)
    ensures forall x :: x in Without(l, id) ==> x.id != id
  {
  }

  /** The evident intent: the first conversation that remains, or '' when none does. */
  function SelectionAfterDeleteFixed(l: seq<Item>, id: string, selectedId: Option<string>): (r: Option<string>)
    ensures r.Some? <==> selectedId == Some(id)
  {
    if selectedId == Some(id) then
      var rest := Without(l, id);
      Some(if |rest| > 0 then rest[0].id else "")
    else None
  }

  /** The fixed selection is never the deleted id, and is a conversation that remains whenever one does. */
  lemma SelectionAfterDeleteFixedRemains(l: seq<Item>, id: string)
    requires id != ""
    ensures var r := SelectionAfterDeleteFixed(l, id, Some(id));
      r.Some? && r.value != id &&
      (|Without(l, id)| > 0 ==> exists x :: x in Without(l, id) && x.id == r.value) &&
      (|Without(l, id)| == 0 ==> r.value == "")
  {
    var rest := Without(l, id);
    if |rest| > 0 {
      assert rest[0] in rest;
    }
  }

  class Panel {
    var conversations: seq<Item>
    var showArchived: bool

    /** The initial state: one conversation '1', not archived; the archived list folded. */
    constructor (now: int)
      ensures conversations == [Item("1", InitialTitle, now, false)] && !showArchived
    {
      conversations := [Item("1", InitialTitle, now, false)];
      showArchived := false;
    }

    /** `handleNewConversation`: a fresh conversation goes first and is selected. */
    method NewConversation(now: nat) returns (select: string)
      modifies this
      ensures conversations == [Item(NatToString(now), NewTitle, now, false)] + old(conversations)
      ensures select == NatToString(now) && conversations[0] in Active(conversations)
      ensures showArchived == old(showArchived)
    {
      var c := Item(NatToString(now), NewTitle, now, false);
      conversations := [c] + conversations;
      select := c.id;
    }

    /** `handleArchive` */
    method Archive(id: string, now: int)
      modifies this
      ensures conversations == SetArchived(old(conversations), id, true, now)
      ensures showArchived == old(showArchived)
    {
      conversations := SetArchived(conversations, id, true, now);
    }

    /** The archived list's button: back to active. */
    method Restore(id: string, now: int)
      modifies this
      ensures conversations == SetArchived(old(conversations), id, false, now)
      ensures showArchived == old(showArchived)
    {
      conversations := SetArchived(conversations, id, false, now);
    }

    /** `handleDelete`, as written: the selection falls back to the first conversation of the old list. */
    method Delete(id: string, selectedId: Option<string>) returns (select: Option<string>)
      modifies this
      ensures conversations == Without(old(conversations), id)
      ensures select == SelectionAfterDelete(old(conversations), id, selectedId)
      ensures showArchived == old(showArchived)
    {
      select := SelectionAfterDelete(conversations, id, selectedId);
      conversations := Without(conversations, id);
    }

    /** The corrected delete: the selection falls back to a conversation that remains. */
    method DeleteFixed(id: string, selectedId: Option<string>) returns (select: Option<string>)
      modifies this
      ensures conversations == Without(old(conversations), id)
      ensures select == SelectionAfterDeleteFixed(old(conversations), id, selectedId)
      ensures showArchived == old(showArchived)
    {
      select := SelectionAfterDeleteFixed(conversations, id, selectedId);
      conversations := Without(conversations, id);
    }

    /** The '已归档' toggle. */
    method ToggleArchived()
      modifies this
      ensures showArchived == !old(showArchived) && conversations == old(conversations)
    {
      showArchived := !showArchived;
    }
  }
}
