/**
 * The skills hook (src/hooks/use-skills.ts): the skill list kept in the
 * `codenova_skills` storage entry, its repair of duplicate entries on load,
 * the per-id edits, the prompt lookup and the batch merge of scanned skills.
 */
module UseSkills {
  import opened Wrappers
  import opened JsString

  datatype Skill = Skill(id: string, name: string, description: string, prompt: string, enabled: bool, path: Option<string>)

  /** A skill without its id (`Omit<Skill, 'id'>`). */
  datatype SkillDraft = SkillDraft(name: string, description: string, prompt: string, enabled: bool, path: Option<string>)

  function WithId(d: SkillDraft, id: string): Skill {
    Skill(id, d.name, d.description, d.prompt, d.enabled, d.path)
  }

  /** The five built-in skills used when nothing (or nothing readable) is stored. */
  const DefaultSkills: seq<Skill> := [
    Skill("review", "review", "代码审查", "请审查以下代码，检查潜在的问题和改进建议：", true, None),
    Skill("explain", "explain", "解释代码", "请详细解释以下代码的功能和工作原理：", true, None),
    Skill("refactor", "refactor", "重构代码", "请重构以下代码，使其更加清晰和高效：", true, None),
    Skill("test", "test", "生成测试", "请为以下代码生成单元测试：", true, None),
    Skill("docs", "docs", "生成文档", "请为以下代码生成详细的文档注释：", true, None)]

  function NamesOf(s: seq<Skill>): set<string> {
    set k | 0 <= k < |s| :: s[k].name
  }

  function IdsOf(s: seq<Skill>): set<string> {
    set k | 0 <= k < |s| :: s[k].id
  }

  lemma NamesAndIdsAppend(s: seq<Skill>, x: Skill)
    ensures NamesOf(s + [x]) == NamesOf(s) + {x.name}
    ensures IdsOf(s + [x]) == IdsOf(s) + {x.id}
  {
    var t := s + [x];
    assert t[|s|] == x;
    forall n | n in NamesOf(s) ensures n in NamesOf(t) {
      var k :| 0 <= k < |s| && s[k].name == n;
      assert t[k] == s[k];
    }
    forall n | n in IdsOf(s) ensures n in IdsOf(t) {
      var k :| 0 <= k < |s| && s[k].id == n;
      assert t[k] == s[k];
    }
  }

  /** No two skills share a name, and no two share an id. */
  predicate UniqueNamesAndIds(s: seq<Skill>) {
    forall i, j :: 0 <= i < j < |s| ==> s[i].name != s[j].name && s[i].id != s[j].id
  }

  // ---------------------------------------------------------------------------
  // Load-time repair of duplicates
  // ---------------------------------------------------------------------------

  /**
   * The skills the load keeps: in order, each skill whose name and id were
   * not seen on a skill already kept.
   */
  function Kept(s: seq<Skill>): seq<Skill>
    decreases |s|
  {
    if |s| == 0 then []
    else
      var k := Kept(s[..|s| - 1]);
      var x := s[|s| - 1];
      if x.name !in NamesOf(k) && x.id !in IdsOf(k) then k + [x] else k
  }

  /** A skill whose name and id are new keeps a list free of duplicates. */
  lemma UniqueAppend(k: seq<Skill>, x: Skill)
    requires UniqueNamesAndIds(k) && x.name !in NamesOf(k) && x.id !in IdsOf(k)
    ensures UniqueNamesAndIds(k + [x])
  {
    var t := k + [x];
    forall i, j | 0 <= i < j < |t| ensures t[i].name != t[j].name && t[i].id != t[j].id {
      if j == |k| {
        assert t[i] == k[i];
        assert k[i].name in NamesOf(k) && k[i].id in IdsOf(k);
      }
    }
  }

  /** The kept skills have unique names and ids, all come from the input, and every dropped one clashed with a kept one. */
  lemma {:induction false} KeptIsUnique(s: seq<Skill>)
    ensures UniqueNamesAndIds(Kept(s))
    ensures |Kept(s)| <= |s|
    ensures forall k :: 0 <= k < |Kept(s)| ==> Kept(s)[k] in s
    ensures forall k :: 0 <= k < |s| ==> s[k] in Kept(s) || s[k].name in NamesOf(Kept(s)) || s[k].id in IdsOf(Kept(s))
  {
    KeptUnique(s);
    KeptFromInput(s);
    KeptCovers(s);
  }

  lemma {:induction false} KeptUnique(s: seq<Skill>)
    ensures UniqueNamesAndIds(Kept(s))
    decreases |s|
  {
    if |s| > 0 {
      var init := s[..|s| - 1];
      var x := s[|s| - 1];
      KeptUnique(init);
      if x.name !in NamesOf(Kept(init)) && x.id !in IdsOf(Kept(init)) {
        UniqueAppend(Kept(init), x);
      }
    }
  }

  lemma {:induction false} KeptFromInput(s: seq<Skill>)
    ensures |Kept(s)| <= |s|
    ensures forall k :: 0 <= k < |Kept(s)| ==> Kept(s)[k] in s
    decreases |s|
  {
    if |s| > 0 {
      var init := s[..|s| - 1];
      KeptFromInput(init);
      assert forall j :: 0 <= j < |init| ==> init[j] == s[j];
      assert forall y :: y in init ==> y in s;
    }
  }

  lemma {:induction false} KeptCovers(s: seq<Skill>)
    ensures forall k :: 0 <= k < |s| ==> s[k] in Kept(s) || s[k].name in NamesOf(Kept(s)) || s[k].id in IdsOf(Kept(s))
    decreases |s|
  {
    if |s| > 0 {
      var init := s[..|s| - 1];
      var k := Kept(init);
      var x := s[|s| - 1];
      KeptCovers(init);
      if x.name !in NamesOf(k) && x.id !in IdsOf(k) {
        var t := k + [x];
        NamesAndIdsAppend(k, x);
        forall j | 0 <= j < |s| ensures s[j] in t || s[j].name in NamesOf(t) || s[j].id in IdsOf(t) {
          if j < |init| {
            assert s[j] == init[j];
            if s[j] in k {
              var m :| 0 <= m < |k| && k[m] == s[j];
              assert t[m] == k[m];
            }
          } else {
            assert t[|k|] == x;
          }
        }
      } else {
        forall j | 0 <= j < |s| ensures s[j] in k || s[j].name in NamesOf(k) || s[j].id in IdsOf(k) {
          if j < |init| {
            assert s[j] == init[j];
          }
        }
      }
    }
  }

  /** The load keeps everything exactly when the stored list had no duplicate name or id. */
  lemma {:induction false} KeptAllIffUnique(s: seq<Skill>)
    ensures |Kept(s)| == |s| <==> UniqueNamesAndIds(s)
    ensures UniqueNamesAndIds(s) ==> Kept(s) == s
  {
    KeptUnique(s);
    KeptAllWhenUnique(s);
    KeptAllOnlyWhenUnique(s);
  }

  lemma {:induction false} KeptAllWhenUnique(s: seq<Skill>)
    ensures UniqueNamesAndIds(s) ==> Kept(s) == s
    decreases |s|
  {
    if |s| > 0 && UniqueNamesAndIds(s) {
      var init := s[..|s| - 1];
      var x := s[|s| - 1];
      assert UniqueNamesAndIds(init) by {
        forall i, j | 0 <= i < j < |init| ensures init[i].name != init[j].name && init[i].id != init[j].id {
          assert init[i] == s[i] && init[j] == s[j];
        }
      }
      KeptAllWhenUnique(init);
      assert x.name !in NamesOf(init) && x.id !in IdsOf(init) by {
        forall m | 0 <= m < |init| ensures init[m].name != x.name && init[m].id != x.id {
          assert init[m] == s[m];
        }
      }
      assert s == init + [x];
    }
  }

  lemma {:induction false} KeptAllOnlyWhenUnique(s: seq<Skill>)
    ensures |Kept(s)| == |s| ==> Kept(s) == s
    decreases |s|
  {
    if |s| > 0 {
      var init := s[..|s| - 1];
      var x := s[|s| - 1];
      KeptFromInput(init);
      KeptAllOnlyWhenUnique(init);
      if |Kept(s)| == |s| {
        var k := Kept(init);
        assert |k| == |init| && x.name !in NamesOf(k) && x.id !in IdsOf(k);
        assert s == init + [x];
      }
    }
  }

  /** Loading twice is loading once. */
  lemma KeptIdempotent(s: seq<Skill>)
    ensures Kept(Kept(s)) == Kept(s)
  {
    KeptIsUnique(s);
    KeptAllIffUnique(Kept(s));
  }

  /** The de-duplicating `forEach` with its two `Set`s of seen names and ids. */
  method Dedupe(parsed: seq<Skill>) returns (unique: seq<Skill>)
    ensures unique == Kept(parsed)
  {
    unique := [];
    var seenNames: set<string> := {};
    var seenIds: set<string> := {};
    var i := 0;
    while i < |parsed|
      invariant 0 <= i <= |parsed|
      invariant unique == Kept(parsed[..i])
      invariant seenNames == NamesOf(unique) && seenIds == IdsOf(unique)
    {
      var s := parsed[i];
      assert parsed[..i + 1][..i] == parsed[..i];
      if s.name !in seenNames && s.id !in seenIds {
        NamesAndIdsAppend(unique, s);
        seenNames := seenNames + {s.name};
        seenIds := seenIds + {s.id};
        unique := unique + [s];
      }
      i := i + 1;
    }
    assert parsed[..i] == parsed;
  }

  // ---------------------------------------------------------------------------
  // Per-id edits (`skills.map` / `skills.filter`)
  // ---------------------------------------------------------------------------

  /** A `Partial<Skill>`: `None` is an absent key. */
  datatype SkillPatch = SkillPatch(
    id: Option<string>, name: Option<string>, description: Option<string>, prompt: Option<string>,
    enabled: Option<bool>, path: Option<Option<string>>)

  /** `{ ...s, ...p }` */
  function Patch(s: Skill, p: SkillPatch): Skill {
    Skill(p.id.GetOr(s.id), p.name.GetOr(s.name), p.description.GetOr(s.description), p.prompt.GetOr(s.prompt),
          p.enabled.GetOr(s.enabled), p.path.GetOr(s.path))
  }

  /** `updateSkill`: the skills with that id take the patch; the others stay as they are, in place. */
  function UpdateSkill(s: seq<Skill>, id: string, p: SkillPatch): (r: seq<Skill>)
    ensures |r| == |s|
    ensures forall k :: 0 <= k < |s| && s[k].id != id ==> r[k] == s[k]
    ensures forall k :: 0 <= k < |s| && s[k].id == id ==> r[k] == Patch(s[k], p)
  {
    seq(|s|, k requires 0 <= k < |s| => if s[k].id == id then Patch(s[k], p) else s[k])
  }

  /** `toggleSkill`: only the skills with that id flip `enabled`. */
  function ToggleSkill(s: seq<Skill>, id: string): (r: seq<Skill>)
    ensures |r| == |s|
    ensures forall k :: 0 <= k < |s| ==> r[k].enabled == (if s[k].id == id then !s[k].enabled else s[k].enabled)
    ensures forall k :: 0 <= k < |s| ==> r[k] == s[k].(enabled := r[k].enabled)
  {
    seq(|s|, k requires 0 <= k < |s| => if s[k].id == id then s[k].(enabled := !s[k].enabled) else s[k])
  }

  /** `deleteSkill`: `skills.filter(s => s.id !== id)`. */
  function DeleteSkill(s: seq<Skill>, id: string): (r: seq<Skill>)
    ensures forall k :: 0 <= k < |r| ==> r[k].id != id && r[k] in s
    ensures forall k :: 0 <= k < |s| && s[k].id != id ==> s[k] in r
    decreases |s|
  {
    if |s| == 0 then []
    else (if s[0].id == id then [] else [s[0]]) + DeleteSkill(s[1..], id)
  }

  /** Toggling twice restores the list. */
  lemma ToggleTwice(s: seq<Skill>, id: string)
    ensures ToggleSkill(ToggleSkill(s, id), id) == s
  {
  }

  /** A list without that id is left as it is by a delete. */
  lemma {:induction false} DeleteAbsent(s: seq<Skill>, id: string)
    requires forall k :: 0 <= k < |s| ==> s[k].id != id
    ensures DeleteSkill(s, id) == s
    decreases |s|
  {
    if |s| > 0 {
      DeleteAbsent(s[1..], id);
    }
  }

  /** Deleting after an edit that keeps the id is deleting: the edit touched only the deleted skills. */
  lemma {:induction false} DeleteAfterUpdate(s: seq<Skill>, id: string, p: SkillPatch)
    requires p.id.None? || p.id == Some(id)
    ensures DeleteSkill(UpdateSkill(s, id, p), id) == DeleteSkill(s, id)
    ensures DeleteSkill(ToggleSkill(s, id), id) == DeleteSkill(s, id)
    decreases |s|
  {
    if |s| > 0 {
      DeleteAfterUpdate(s[1..], id, p);
      assert UpdateSkill(s, id, p)[1..] == UpdateSkill(s[1..], id, p);
      assert ToggleSkill(s, id)[1..] == ToggleSkill(s[1..], id);
    }
  }

  // ---------------------------------------------------------------------------
  // Prompt lookup
  // ---------------------------------------------------------------------------

  /** `skills.find(s => s.name === name && s.enabled)`, as an index. */
  function FindEnabled(s: seq<Skill>, name: string): (r: Option<nat>)
    ensures r.Some? ==> r.value < |s| && s[r.value].name == name && s[r.value].enabled
    ensures r.Some? ==> forall j :: 0 <= j < r.value ==> !(s[j].name == name && s[j].enabled)
    ensures r.None? ==> forall j :: 0 <= j < |s| ==> !(s[j].name == name && s[j].enabled)
    decreases |s|
  {
    if |s| == 0 then None
    else if s[0].name == name && s[0].enabled then Some(0)
    else match FindEnabled(s[1..], name)
      case None => None
      case Some(k) => Some(k + 1)
  }

  /** `getSkillPrompt`: the first enabled skill of that name gives its prompt; an empty prompt or no such skill gives `null`. */
  function GetSkillPrompt(s: seq<Skill>, name: string): (r: Option<string>)
    ensures r.Some? <==> FindEnabled(s, name).Some? && s[FindEnabled(s, name).value].prompt != ""
    ensures r.Some? ==> r.value == s[FindEnabled(s, name).value].prompt && r.value != ""
  {
    match FindEnabled(s, name)
    case None => None
    case Some(k) => if s[k].prompt == "" then None else Some(s[k].prompt)
  }

  // ---------------------------------------------------------------------------
  // Batch merge of scanned skills
  // ---------------------------------------------------------------------------

  /** `newSkills.find(ns => ns.name === name)` */
  function FirstNamed(batch: seq<SkillDraft>, name: string): (r: Option<SkillDraft>)
    ensures r.Some? ==> r.value in batch && r.value.name == name
    ensures r.None? <==> forall k :: 0 <= k < |batch| ==> batch[k].name != name
    decreases |batch|
  {
    if |batch| == 0 then None
    else if batch[0].name == name then Some(batch[0])
    else FirstNamed(batch[1..], name)
  }

  /** An existing skill the batch refreshes: one is named the same, and the skill is disabled or its prompt or path differs. */
  predicate NeedsRefresh(s: Skill, batch: seq<SkillDraft>) {
    var m := FirstNamed(batch, s.name);
    m.Some? && (!s.enabled || s.prompt != m.value.prompt || s.path != m.value.path)
  }

  /** A skill after the batch: refreshed ones are enabled and take the batch entry's prompt and path. */
  function Refreshed(s: Skill, batch: seq<SkillDraft>): (r: Skill)
    ensures NeedsRefresh(s, batch) ==> r.enabled && r.prompt == FirstNamed(batch, s.name).value.prompt
                                       && r.path == FirstNamed(batch, s.name).value.path
    ensures NeedsRefresh(s, batch) ==> r.id == s.id && r.name == s.name && r.description == s.description
    ensures !NeedsRefresh(s, batch) ==> r == s
    ensures FirstNamed(batch, s.name).Some? ==>
      r.enabled && r.prompt == FirstNamed(batch, s.name).value.prompt && r.path == FirstNamed(batch, s.name).value.path
  {
    if NeedsRefresh(s, batch) then
      var m := FirstNamed(batch, s.name).value;
      s.(enabled := true, prompt := m.prompt, path := m.path)
    else s
  }

  /** `local-<now>-<i>`, the id a new batch entry at index `i` gets. */
  function LocalId(now: nat, i: nat): string {
    "local-" + NatToString(now) + "-" + NatToString(i)
  }

  lemma LocalIdsDiffer(now: nat, i: nat, j: nat)
    requires i != j
    ensures LocalId(now, i) != LocalId(now, j)
  {
    var p := "local-" + NatToString(now) + "-";
    if LocalId(now, i) == LocalId(now, j) {
      assert p + NatToString(i) == LocalId(now, i);
      assert p + NatToString(j) == LocalId(now, j);
      assert NatToString(i) == (p + NatToString(i))[|p|..];
      assert NatToString(j) == (p + NatToString(j))[|p|..];
      NatToStringInjective(i, j);
    }
  }

  /** The batch entries `toAdd` collects from the first `|batch|`: in order, each whose name is neither pre-existing nor already added. */
  function Additions(existing: set<string>, batch: seq<SkillDraft>, now: nat): seq<Skill>
    decreases |batch|
  {
    if |batch| == 0 then []
    else
      var a := Additions(existing, batch[..|batch| - 1], now);
      var d := batch[|batch| - 1];
      if d.name !in existing && d.name !in NamesOf(a) then a + [WithId(d, LocalId(now, |batch| - 1))] else a
  }

  /** The added skills have new, distinct names, and every batch name ends up existing or added. */
  lemma {:induction false} AdditionsAreNew(existing: set<string>, batch: seq<SkillDraft>, now: nat)
    ensures forall i, j :: 0 <= i < j < |Additions(existing, batch, now)| ==>
      Additions(existing, batch, now)[i].name != Additions(existing, batch, now)[j].name
    ensures forall k :: 0 <= k < |Additions(existing, batch, now)| ==> Additions(existing, batch, now)[k].name !in existing
    ensures forall k :: 0 <= k < |batch| ==> batch[k].name in existing || batch[k].name in NamesOf(Additions(existing, batch, now))
    decreases |batch|
  {
    if |batch| > 0 {
      var init := batch[..|batch| - 1];
      var a := Additions(existing, init, now);
      var d := batch[|batch| - 1];
      AdditionsAreNew(existing, init, now);
      var x := WithId(d, LocalId(now, |batch| - 1));
      NamesAndIdsAppend(a, x);
      assert forall k :: 0 <= k < |init| ==> init[k] == batch[k];
      if d.name !in existing && d.name !in NamesOf(a) {
        var t := a + [x];
        assert t[|a|] == x && x.name == d.name;
        forall i, j | 0 <= i < j < |t| ensures t[i].name != t[j].name {
          if j == |a| {
            assert t[i] == a[i];
            assert a[i].name in NamesOf(a);
          } else {
            assert t[i] == a[i] && t[j] == a[j];
          }
        }
        forall k | 0 <= k < |t| ensures t[k].name !in existing {
          if k < |a| {
            assert t[k] == a[k];
          }
        }
        assert Additions(existing, batch, now) == t;
      }
    }
  }

  /** A skill from the scan, with the fields `addSkillsBatch` is given: no prompt, described as a local skill when blank. */
  function ScannedDraft(name: string, description: string, path: string): (d: SkillDraft)
    ensures d.name == name && d.prompt == "" && d.enabled && d.path == Some(path)
    ensures d.description == if description == "" then "本地 Skill" else description
  {
    SkillDraft(name, if description == "" then "本地 Skill" else description, "", true, Some(path))
  }

  /** The hook's state: the skill list and the `codenova_skills` storage entry (`None` when never written). */
  class SkillStore {
    var skills: seq<Skill>
    var stored: Option<seq<Skill>>

    constructor (initialStored: Option<seq<Skill>>)
      ensures skills == [] && stored == initialStored
    {
      skills := [];
      stored := initialStored;
    }

    /**
     * The mount effect: a stored text that parses yields its de-duplicated
     * list, written back only when something was dropped; no text or one that
     * does not parse yields the defaults.
     */
    method Load(text: Option<string>, parse: string -> Option<seq<Skill>>)
      modifies this
      ensures text.Some? && text.value != "" && parse(text.value).Some? ==>
        var parsed := parse(text.value).value;
        && skills == Kept(parsed)
        && stored == (if UniqueNamesAndIds(parsed) then old(stored) else Some(Kept(parsed)))
      ensures !(text.Some? && text.value != "" && parse(text.value).Some?) ==> skills == DefaultSkills && stored == old(stored)
    {
      if text.Some? && text.value != "" {
        var parsed := parse(text.value);
        if parsed.Some? {
          var unique := Dedupe(parsed.value);
          KeptAllIffUnique(parsed.value);
          if |unique| != |parsed.value| {
            stored := Some(unique);
          }
          skills := unique;
        } else {
          skills := DefaultSkills;
        }
      } else {
        skills := DefaultSkills;
      }
    }

    method SaveSkills(s: seq<Skill>)
      modifies this
      ensures skills == s && stored == Some(s)
    {
      stored := Some(s);
      skills := s;
    }

    /** `addSkill`: one skill with the id `id` (the caller's `Date.now()`) after the existing ones. */
    method AddSkill(d: SkillDraft, id: string) returns (added: Skill)
      modifies this
      ensures added == WithId(d, id)
      ensures skills == old(skills) + [added] && stored == Some(skills)
    {
      added := WithId(d, id);
      SaveSkills(skills + [added]);
    }

    method Update(id: string, p: SkillPatch)
      modifies this
      ensures skills == UpdateSkill(old(skills), id, p) && stored == Some(skills)
    {
      SaveSkills(UpdateSkill(skills, id, p));
    }

    method Delete(id: string)
      modifies this
      ensures skills == DeleteSkill(old(skills), id) && stored == Some(skills)
    {
      SaveSkills(DeleteSkill(skills, id));
    }

    method Toggle(id: string)
      modifies this
      ensures skills == ToggleSkill(old(skills), id) && stored == Some(skills)
    {
      SaveSkills(ToggleSkill(skills, id));
    }

    /**
     * `addSkillsBatch`: refreshes the existing skills the batch names and
     * appends the entries with new names; when neither happens the list and
     * the storage entry stay as they were.
     */
    method AddSkillsBatch(batch: seq<SkillDraft>, now: nat)
      modifies this
      ensures var updated := seq(|old(skills)|, k requires 0 <= k < |old(skills)| => Refreshed(old(skills)[k], batch));
        var toAdd := Additions(NamesOf(old(skills)), batch, now);
        var changed := exists k :: 0 <= k < |old(skills)| && NeedsRefresh(old(skills)[k], batch);
        if |toAdd| == 0 && !changed then skills == old(skills) && stored == old(stored)
        else skills == updated + toAdd && stored == Some(skills)
    {
      var prev := skills;
      var changed := false;
      var updatedPrev: seq<Skill> := [];
      var k := 0;
      while k < |prev|
        invariant 0 <= k <= |prev|
        invariant skills == prev && stored == old(stored)
        invariant updatedPrev == seq(k, j requires 0 <= j < k => Refreshed(prev[j], batch))
        invariant changed <==> exists j :: 0 <= j < k && NeedsRefresh(prev[j], batch)
      {
        if NeedsRefresh(prev[k], batch) {
          changed := true;
        }
        updatedPrev := updatedPrev + [Refreshed(prev[k], batch)];
        k := k + 1;
      }
      var existingNames := NamesOf(prev);
      var toAdd: seq<Skill> := [];
      var i := 0;
      while i < |batch|
        invariant 0 <= i <= |batch|
        invariant skills == prev && stored == old(stored)
        invariant toAdd == Additions(NamesOf(prev), batch[..i], now)
        invariant existingNames == NamesOf(prev) + NamesOf(toAdd)
      {
        var d := batch[i];
        assert batch[..i + 1][..i] == batch[..i];
        if d.name !in existingNames {
          var x := WithId(d, LocalId(now, i));
          NamesAndIdsAppend(toAdd, x);
          existingNames := existingNames + {d.name};
          toAdd := toAdd + [x];
        }
        i := i + 1;
      }
      assert batch[..i] == batch;
      if |toAdd| == 0 && !changed {
        return;
      }
      skills := updatedPrev + toAdd;
      stored := Some(skills);
    }
  }
}
