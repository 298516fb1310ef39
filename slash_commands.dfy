/**
 * The slash-command menu (src/components/chat/slash-commands.tsx): the five
 * built-in commands followed by one command per enabled skill, the search
 * filter taken from the input after its '/', the selected item, and the
 * parser that splits "/command value" input.
 */
module SlashCommands {
  import opened Wrappers
  import opened JsString
  import UseSkills

  datatype CommandType = Builtin | SkillCommand | Mcp

  /** A menu entry; its icon is left out. */
  datatype CommandItem = CommandItem(name: string, description: string, action: string, commandType: CommandType)

  const BuiltinCommands: seq<CommandItem> := [
    CommandItem("/clear", "清除当前对话", "clear", Builtin),
    CommandItem("/help", "查看所有可用命令", "help", Builtin),
    CommandItem("/cost", "查看 Token 消耗统计", "cost", Builtin),
    CommandItem("/compact", "压缩上下文", "compact", Builtin),
    CommandItem("/new", "创建新对话", "new", Builtin)]

  /** The entry for one skill: named '/<name>', with action 'skill:<name>'. */
  function CommandFor(s: UseSkills.Skill): CommandItem {
    CommandItem("/" + s.name, s.description, "skill:" + s.name, SkillCommand)
  }

  /** `skills.filter(s => s.enabled).map(...)` */
  function SkillCommands(skills: seq<UseSkills.Skill>): (r: seq<CommandItem>)
    ensures |r| <= |skills|
    ensures forall k :: 0 <= k < |skills| && skills[k].enabled ==> CommandFor(skills[k]) in r
    ensures forall k :: 0 <= k < |r| ==> exists j :: 0 <= j < |skills| && skills[j].enabled && r[k] == CommandFor(skills[j])
    decreases |skills|
  {
    if |skills| == 0 then []
    else
      var rest := SkillCommands(skills[1..]);
      assert forall j :: 0 <= j < |skills| - 1 ==> skills[1..][j] == skills[j + 1];
      if skills[0].enabled then
        var r := [CommandFor(skills[0])] + rest;
        assert forall k :: 1 <= k < |r| ==> r[k] == rest[k - 1];
        r
      else rest
  }

  /** The skill commands of a list are those of its parts in order, so they keep the skills' order. */
  lemma {:induction false} SkillCommandsAppend(a: seq<UseSkills.Skill>, b: seq<UseSkills.Skill>)
    ensures SkillCommands(a + b) == SkillCommands(a) + SkillCommands(b)
    decreases |a|
  {
    if |a| == 0 {
      assert a + b == b;
    } else {
      assert (a + b)[1..] == a[1..] + b;
      assert (a + b)[0] == a[0];
      SkillCommandsAppend(a[1..], b);
    }
  }

  /** `[...builtinCommands, ...skillCommands]` */
  function AllCommands(skills: seq<UseSkills.Skill>): (r: seq<CommandItem>)
    ensures |r| == 5 + |SkillCommands(skills)|
    ensures r[..5] == BuiltinCommands && r[5..] == SkillCommands(skills)
  {
    BuiltinCommands + SkillCommands(skills)
  }

  /** The text after a leading '/', lower-cased; nothing when the input does not start with '/'. */
  function SearchTerm(input: string): (r: string)
    ensures !StartsWith(input, "/") ==> r == ""
    ensures StartsWith(input, "/") ==> r == ToLower(input[1..])
  {
    if StartsWith(input, "/") then ToLower(input[1..]) else ""
  }

  /** A command matches a term contained in its lower-cased name or in its (non-empty) lower-cased description. */
  predicate Matches(c: CommandItem, term: string) {
    Contains(ToLower(c.name), term) || (c.description != "" && Contains(ToLower(c.description), term))
  }

  /** `commands.filter(cmd => Matches(cmd, term))` */
  function Matching(commands: seq<CommandItem>, term: string): (r: seq<CommandItem>)
    ensures |r| <= |commands|
    ensures forall k :: 0 <= k < |r| ==> r[k] in commands && Matches(r[k], term)
    ensures forall k :: 0 <= k < |commands| && Matches(commands[k], term) ==> commands[k] in r
    decreases |commands|
  {
    if |commands| == 0 then []
    else
      var rest := Matching(commands[1..], term);
      assert forall j :: 0 <= j < |commands| - 1 ==> commands[1..][j] == commands[j + 1];
      if Matches(commands[0], term) then
        var r := [commands[0]] + rest;
        assert forall k :: 1 <= k < |r| ==> r[k] == rest[k - 1];
        r
      else rest
  }

  /** The filter keeps order: filtering a concatenation filters each part. */
  lemma {:induction false} MatchingAppend(a: seq<CommandItem>, b: seq<CommandItem>, term: string)
    ensures Matching(a + b, term) == Matching(a, term) + Matching(b, term)
    decreases |a|
  {
    if |a| == 0 {
      assert a + b == b;
    } else {
      assert (a + b)[1..] == a[1..] + b;
      assert (a + b)[0] == a[0];
      MatchingAppend(a[1..], b, term);
    }
  }

  /** Filtering again with the same term changes nothing. */
  lemma {:induction false} MatchingIdempotent(commands: seq<CommandItem>, term: string)
    ensures Matching(Matching(commands, term), term) == Matching(commands, term)
    decreases |commands|
  {
    if |commands| > 0 {
      MatchingIdempotent(commands[1..], term);
    }
  }

  /** `filteredCommands`: everything for an empty term, else the matching commands. */
  function Filtered(input: string, commands: seq<CommandItem>): (r: seq<CommandItem>)
    ensures SearchTerm(input) == "" ==> r == commands
    ensures SearchTerm(input) != "" ==> r == Matching(commands, SearchTerm(input))
  {
    var term := SearchTerm(input);
    if term == "" then commands else Matching(commands, term)
  }

  /** `getSelectedCommand`: the filtered item at the index, `null` when the index is outside the list. */
  function GetSelectedCommand(input: string, selectedIndex: int, commands: seq<CommandItem>): (r: Option<CommandItem>)
    ensures r.Some? <==> 0 <= selectedIndex < |Filtered(input, commands)|
    ensures r.Some? ==> r.value == Filtered(input, commands)[selectedIndex] && r.value in commands
  {
    var filtered := Filtered(input, commands);
    if 0 <= selectedIndex < |filtered| then Some(filtered[selectedIndex]) else None
  }

  /** A built-in command stays listed whatever skills exist, and each has a distinct action. */
  lemma BuiltinsAlwaysListed(skills: seq<UseSkills.Skill>, k: int)
    requires 0 <= k < 5
    ensures AllCommands(skills)[k] == BuiltinCommands[k]
    ensures forall j :: 0 <= j < 5 && j != k ==> BuiltinCommands[j].action != BuiltinCommands[k].action
  {
    assert AllCommands(skills)[..5][k] == AllCommands(skills)[k];
  }

  // ---------------------------------------------------------------------------
  // parseSlashCommand
  // ---------------------------------------------------------------------------

  datatype Parsed = Parsed(command: string, value: string)

  /** `parseSlashCommand`: `null` unless the input starts with '/'; else the first space-separated token without its '/' and the rest joined by ' '. */
  function ParseSlashCommand(input: string): (r: Option<Parsed>)
    ensures r.None? <==> !StartsWith(input, "/")
    ensures r.Some? ==> ' ' !in r.value.command
  {
    if !StartsWith(input, "/") then None
    else
      var parts := Split(input, ' ');
      SplitPiecesHaveNoSeparator(input, ' ');
      assert parts[0] == [input[0]] + Split(input[1..], ' ')[0];
      Some(Parsed(parts[0][1..], Join(parts[1..], ' ')))
  }

  /** '/' and the command, then ' ' and the value when the input had a space, give back the input. */
  lemma ParseSlashCommandRoundTrip(input: string)
    requires StartsWith(input, "/")
    ensures var p := ParseSlashCommand(input).value;
      input == "/" + p.command + (if ' ' in input then " " + p.value else "")
  {
    var parts := Split(input, ' ');
    var p := ParseSlashCommand(input).value;
    JoinSplit(input, ' ');
    SplitPiecesHaveNoSeparator(input, ' ');
    assert parts[0] == [input[0]] + Split(input[1..], ' ')[0];
    assert "/" + parts[0][1..] == parts[0];
    if |parts| == 1 {
      assert input == parts[0];
    } else {
      assert input == parts[0] + [' '] + Join(parts[1..], ' ');
      assert input[|parts[0]|] == ' ';
    }
  }
}
