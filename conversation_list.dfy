/**
 * The conversation list (src/components/sidebar/conversation-list.tsx): the
 * active conversations narrowed by a case-insensitive title search, the
 * archived ones apart, and the rename editor of each row. `onRename` is
 * modelled as the new title a step reports (`None` when it reports none).
 */
module ConversationList {
  import opened Wrappers
  import opened JsString
  import opened Store

  /** `conversations.filter(c => !c.archived)` */
  function Active(l: seq<Conversation>): (r: seq<Conversation>)
    ensures forall x :: x in r <==> x in l && !x.archived
  {
    if |l| == 0 then []
    else (if l[0].archived then [] else [l[0]]) + Active(l[1..])
  }

  /** `conversations.filter(c => c.archived)` */
  function Archived(l: seq<Conversation>): (r: seq<Conversation>)
    ensures forall x :: x in r <==> x in l && x.archived
  {
    if |l| == 0 then []
    else (if l[0].archived then [l[0]] else []) + Archived(l[1..])
  }

  /** Each conversation is in exactly one of the two lists, as often as in the whole. */
  lemma {:induction false} ActiveArchivedPartition(l: seq<Conversation>)
    ensures multiset(Active(l)) + multiset(Archived(l)) == multiset(l)
    ensures |Active(l)| + |Archived(l)| == |l|
  {
    if |l| > 0 {
      ActiveArchivedPartition(l[1..]);
      assert l == [l[0]] + l[1..];
    }
  }

  predicate TitleMatches(c: Conversation, q: string) {
    Contains(ToLower(c.title), ToLower(q))
  }

  /** `filter(c => c.title.toLowerCase().includes(q.toLowerCase()))` */
  function MatchingTitles(l: seq<Conversation>, q: string): (r: seq<Conversation>)
    ensures forall x :: x in r <==> x in l && TitleMatches(x, q)
    ensures |r| <= |l|
  {
    if |l| == 0 then []
    else (if TitleMatches(l[0], q) then [l[0]] else []) + MatchingTitles(l[1..], q)
  }

  /** The search keeps the list's order: it distributes over concatenation. */
  lemma {:induction false} MatchingTitlesAppend(a: seq<Conversation>, b: seq<Conversation>, q: string)
    ensures MatchingTitles(a + b, q) == MatchingTitles(a, q) + MatchingTitles(b, q)
  {
    if |a| > 0 {
      assert (a + b)[1..] == a[1..] + b;
      MatchingTitlesAppend(a[1..], b, q);
    } else {
      assert a + b == b;
    }
  }

  /** `filteredActive`: an empty query shows every active conversation. */
  function FilteredActive(l: seq<Conversation>, searchQuery: string): (r: seq<Conversation>)
    ensures searchQuery == "" ==> r == Active(l)
    ensures forall x :: x in r <==> x in l && !x.archived && (searchQuery == "" || TitleMatches(x, searchQuery))
  {
    if searchQuery == "" then Active(l) else MatchingTitles(Active(l), searchQuery)
  }

  /** Searching the results again with the same query changes nothing. */
  lemma {:induction false} MatchingTitlesIdempotent(l: seq<Conversation>, q: string)
    ensures MatchingTitles(MatchingTitles(l, q), q) == MatchingTitles(l, q)
  {
    if |l| > 0 {
      MatchingTitlesIdempotent(l[1..], q);
      var head := if TitleMatches(l[0], q) then [l[0]] else [];
      MatchingTitlesAppend(head, MatchingTitles(l[1..], q), q);
      if TitleMatches(l[0], q) {
        assert MatchingTitles(head, q) == head by { assert head[1..] == []; }
      }
    }
  }

  /** A query matches whatever its case: `Abc` finds the same titles as `abc`. */
  lemma MatchesIgnoreQueryCase(l: seq<Conversation>, q: string)
    ensures MatchingTitles(l, ToLower(q)) == MatchingTitles(l, q)
  {
    ToLowerIdempotent(q);
  }

  /**
   * The rename `handleRename` reports: the trimmed text, only when it is not
   * blank and the text differs from the title.
   */
  function RenameTo(editTitle: string, title: string): (r: Option<string>)
    ensures r.Some? <==> !IsBlank(editTitle) && editTitle != title
    ensures r.Some? ==> r.value == Trim(editTitle) && Trim(r.value) == r.value && r.value != ""
  {
    var trimmed := Trim(editTitle);
    TrimIdempotent(editTitle);
    if trimmed != "" && editTitle != title then Some(trimmed) else None
  }

  /** `ConversationItem`'s editor state for one conversation. */
  class Item {
    var title: string
    var isEditing: bool
    var editTitle: string

    constructor (title: string)
      ensures this.title == title && !isEditing && editTitle == title
    {
      this.title := title;
      isEditing := false;
      editTitle := title;
    }

    /**
     * A render with the conversation's current title: the effect keyed on
     * `conversation.title` resets `editTitle` only when the title changed, so
     * an edit in progress survives a render with the same title.
     */
    method TitleChanged(newTitle: string)
      modifies this
      ensures title == newTitle && isEditing == old(isEditing)
      ensures newTitle != old(title) ==> editTitle == newTitle
      ensures newTitle == old(title) ==> editTitle == old(editTitle)
    {
      if newTitle != title {
        editTitle := newTitle;
      }
      title := newTitle;
    }

    /** The pencil button. */
    method StartEditing()
      modifies this
      ensures isEditing && title == old(title) && editTitle == old(editTitle)
    {
      isEditing := true;
    }

    /** `onChange` of the input. */
    method Edit(value: string)
      modifies this
      ensures editTitle == value && title == old(title) && isEditing == old(isEditing)
    {
      editTitle := value;
    }

    /** `handleRename` (also on blur and Enter): the rename it reports, and editing ends either way. */
    method Rename() returns (renamed: Option<string>)
      modifies this
      ensures renamed == RenameTo(old(editTitle), old(title))
      ensures !isEditing && title == old(title) && editTitle == old(editTitle)
    {
      var trimmed := Trim(editTitle);
      if trimmed != "" && editTitle != title {
        renamed := Some(trimmed);
      } else {
        renamed := None;
      }
      isEditing := false;
    }

    /** `handleKeyDown`: Enter renames, Escape throws the edit away, any other key does nothing. */
    method KeyDown(key: string) returns (renamed: Option<string>)
      modifies this
      ensures key == "Enter" ==> renamed == RenameTo(old(editTitle), old(title))
      ensures key == "Enter" ==> !isEditing && editTitle == old(editTitle)
      ensures key == "Escape" ==> renamed.None? && !isEditing && editTitle == old(title)
      ensures key != "Enter" && key != "Escape" ==>
        renamed.None? && isEditing == old(isEditing) && editTitle == old(editTitle)
      ensures title == old(title)
    {
      renamed := None;
      if key == "Enter" {
        renamed := Rename();
      } else if key == "Escape" {
        editTitle := title;
        isEditing := false;
      }
    }
  }
}
