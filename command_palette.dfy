/**
 * The command palette (src/components/chat/command-palette.tsx): a fixed list
 * of commands filtered by the search text, a selection index moved by the
 * arrow keys, and Enter / Escape handling.
 */
module CommandPalette {
  import opened Wrappers
  import opened JsString

  /** A palette command; its icon is left out and its action is named by `id`. */
  datatype Command = Command(id: string, name: string, description: string, shortcut: Option<string>)

  const DefaultCommands: seq<Command> := [
    Command("new-chat", "新建对话", "创建一个新的对话", Some("⌘N")),
    Command("clear", "清除对话", "清除当前对话内容", Some("⌘L")),
    Command("cost", "查看用量", "查看 Token 消耗和费用", None),
    Command("settings", "打开设置", "打开设置面板", Some("⌘,")),
    Command("project", "选择项目", "选择项目目录", None)]

  /** The name is compared lower-cased, the description verbatim (case-sensitive). */
  predicate Matches(c: Command, search: string) {
    Contains(ToLower(c.name), ToLower(search)) || Contains(c.description, search)
  }

  function MatchingCommands(cs: seq<Command>, search: string): (r: seq<Command>)
    ensures |r| <= |cs|
    ensures forall k :: 0 <= k < |r| ==> r[k] in cs && Matches(r[k], search)
    ensures forall k :: 0 <= k < |cs| && Matches(cs[k], search) ==> cs[k] in r
    decreases |cs|
  {
    if |cs| == 0 then []
    else
      var rest := MatchingCommands(cs[1..], search);
      assert forall j :: 0 <= j < |cs| - 1 ==> cs[1..][j] == cs[j + 1];
      if Matches(cs[0], search) then
        var r := [cs[0]] + rest;
        assert forall k :: 1 <= k < |r| ==> r[k] == rest[k - 1];
        r
      else rest
  }

  /** The listed commands: all of them for an empty search, else the matching ones. */
  function Commands(search: string): (r: seq<Command>)
    ensures search == "" ==> r == DefaultCommands
    ensures search != "" ==> r == MatchingCommands(DefaultCommands, search)
  {
    if search == "" then DefaultCommands else MatchingCommands(DefaultCommands, search)
  }

  /** ArrowDown: `Math.min(i + 1, n - 1)`, which is -1 on an empty list. */
  function Down(i: int, n: nat): (r: int)
    ensures r <= n - 1 && (r == i + 1 || r == n - 1)
    ensures n == 0 && i >= -1 ==> r == -1
    ensures i < n - 1 ==> r == i + 1
  {
    if i + 1 <= n - 1 then i + 1 else n - 1
  }

  /** ArrowUp: `Math.max(i - 1, 0)`. */
  function Up(i: int): (r: int)
    ensures r >= 0 && (r == i - 1 || r == 0)
    ensures i >= 1 ==> r == i - 1
  {
    if i - 1 > 0 then i - 1 else 0
  }

  /** Inside the list, Up undoes Down and Down undoes Up. */
  lemma UpDownInverse(i: int, n: nat)
    requires 0 <= i < n
    ensures i < n - 1 ==> Up(Down(i, n)) == i
    ensures i > 0 ==> Down(Up(i), n) == i
  {
  }

  datatype Key = ArrowDown | ArrowUp | Enter | Escape | OtherKey

  /** The palette's state: its search text, the selection, whether it is open, and the commands run so far. */
  class Palette {
    var search: string
    var selectedIndex: int
    var isOpen: bool
    var ran: seq<string>

    /** The selection is a position of the list; on an empty list it is 0, or -1 after ArrowDown. */
    predicate Valid()
      reads this
    {
      || 0 <= selectedIndex < |Commands(search)|
      || (|Commands(search)| == 0 && -1 <= selectedIndex <= 0)
    }

    constructor ()
      ensures Valid() && search == "" && selectedIndex == 0 && !isOpen && ran == []
    {
      search := "";
      selectedIndex := 0;
      isOpen := false;
      ran := [];
    }

    /** Opening clears the search and the selection. */
    method Open()
      modifies this
      ensures Valid() && isOpen && search == "" && selectedIndex == 0 && ran == old(ran)
    {
      isOpen := true;
      search := "";
      selectedIndex := 0;
    }

    /** A new search text resets the selection to the first item. */
    method SetSearch(s: string)
      modifies this
      ensures Valid() && search == s && selectedIndex == 0 && isOpen == old(isOpen) && ran == old(ran)
    {
      search := s;
      selectedIndex := 0;
    }

    /**
     * `handleKeyDown`: the arrows move the selection within the list; Enter
     * runs the selected command and closes only when there is one; Escape
     * closes without running anything.
     */
    method KeyDown(key: Key) returns (closed: bool)
      requires Valid() && isOpen
      modifies this
      ensures Valid() && search == old(search)
      ensures |Commands(search)| > 0 ==> 0 <= selectedIndex < |Commands(search)|
      ensures key == Enter ==> (closed <==> |Commands(search)| > 0)
      ensures key == ArrowDown ==> selectedIndex == Down(old(selectedIndex), |Commands(search)|) && ran == old(ran) && !closed
      ensures key == ArrowUp ==> selectedIndex == Up(old(selectedIndex)) && ran == old(ran) && !closed
      ensures key == Enter ==> selectedIndex == old(selectedIndex)
      ensures key == Enter ==>
        (if 0 <= selectedIndex < |Commands(search)| then closed && ran == old(ran) + [Commands(search)[selectedIndex].id]
         else !closed && ran == old(ran))
      ensures key == Escape ==> closed && ran == old(ran) && selectedIndex == old(selectedIndex)
      ensures key == OtherKey ==> !closed && ran == old(ran) && selectedIndex == old(selectedIndex)
      ensures isOpen == !closed
    {
      var commands := Commands(search);
      closed := false;
      match key {
        case ArrowDown =>
          selectedIndex := Down(selectedIndex, |commands|);
        case ArrowUp =>
          selectedIndex := Up(selectedIndex);
        case Enter =>
          if 0 <= selectedIndex < |commands| {
            ran := ran + [commands[selectedIndex].id];
            closed := true;
          }
        case Escape =>
          closed := true;
        case OtherKey =>
      }
      if closed {
        isOpen := false;
      }
    }

    /** A click on a listed command of the open palette runs it and closes the palette, whatever the selection. */
    method Click(index: nat)
      requires isOpen && index < |Commands(search)|
      modifies this
      ensures ran == old(ran) + [Commands(old(search))[index].id] && !isOpen
      ensures search == old(search) && selectedIndex == old(selectedIndex)
    {
      var commands := Commands(search);
      ran := ran + [commands[index].id];
      isOpen := false;
    }
  }
}
