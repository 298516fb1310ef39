/**
 * The theme hook (src/hooks/use-theme.ts): the one-time migration to the
 * aurora gradient theme, the theme effect that sets the classes of the
 * document's root element and persists the theme, and `themeClass`.
 * The root element's class list is a sequence of class names without
 * repetitions; `localStorage` is a map from key to string.
 */
module UseTheme {

  /** A theme name. A value read back from storage is cast, not checked, so it may be any string. */
  type Theme = string

  const Light: Theme := "light"
  const Dark: Theme := "dark"
  const Gradient: Theme := "gradient"

  const ThemeKey: string := "codenova-theme"
  const MigratedKey: string := "codenova-theme-migrated-1.0.1"

  const DarkClass: string := "dark"
  const AuroraClass: string := "gradient-aurora"

  /** `themeClass`: the class that marks the theme, empty for light (or an unknown name). */
  function ThemeClass(t: Theme): (r: string)
    ensures r == AuroraClass <==> t == Gradient
    ensures r == DarkClass <==> t == Dark
    ensures r == "" <==> t != Gradient && t != Dark
  {
    if t == Gradient then AuroraClass else if t == Dark then DarkClass else ""
  }

  // ---------------------------------------------------------------------------
  // The root element's class list
  // ---------------------------------------------------------------------------

  predicate NoDup(l: seq<string>) {
    forall i, j :: 0 <= i < j < |l| ==> l[i] != l[j]
  }

  /** `classList.remove(c)` */
  function Remove(l: seq<string>, c: string): (r: seq<string>)
    ensures forall x :: x in r <==> x in l && x != c
    ensures NoDup(l) ==> NoDup(r)
    decreases |l|
  {
    if |l| == 0 then []
    else
      var rest := Remove(l[1..], c);
      assert forall x :: x in l[1..] ==> x in l;
      if l[0] == c then rest
      else
        assert NoDup(l) ==> NoDup(l[1..]) && l[0] !in rest;
        assert NoDup(l) ==> forall j :: 0 < j < |[l[0]] + rest| ==> ([l[0]] + rest)[j] in rest;
        [l[0]] + rest
  }

  /** `classList.add(c)`: a class already present stays where it is. */
  function Add(l: seq<string>, c: string): (r: seq<string>)
    ensures forall x :: x in r <==> x in l || x == c
    ensures NoDup(l) ==> NoDup(r)
  {
    if c in l then l else l + [c]
  }

  /** The class list with both theme classes removed. */
  function Cleared(l: seq<string>): seq<string> {
    Remove(Remove(l, DarkClass), AuroraClass)
  }

  /** The theme effect on the class list: remove both theme classes, then add those of `t`. */
  function ApplyClasses(l: seq<string>, t: Theme): (r: seq<string>)
    ensures NoDup(l) ==> NoDup(r)
    ensures DarkClass in r <==> t == Dark || t == Gradient
    ensures AuroraClass in r <==> t == Gradient
    ensures ThemeClass(t) != "" ==> ThemeClass(t) in r
    ensures forall x :: x != DarkClass && x != AuroraClass ==> (x in r <==> x in l)
  {
    var cleared := Cleared(l);
    if t == Dark then Add(cleared, DarkClass)
    else if t == Gradient then Add(Add(cleared, AuroraClass), DarkClass)
    else cleared
  }

  lemma {:induction false} RemoveAppend(a: seq<string>, b: seq<string>, c: string)
    ensures Remove(a + b, c) == Remove(a, c) + Remove(b, c)
    decreases |a|
  {
    if |a| == 0 {
      assert a + b == b;
    } else {
      assert (a + b)[1..] == a[1..] + b;
      RemoveAppend(a[1..], b, c);
    }
  }

  lemma {:induction false} RemoveAbsent(l: seq<string>, c: string)
    requires c !in l
    ensures Remove(l, c) == l
    decreases |l|
  {
    if |l| > 0 {
      RemoveAbsent(l[1..], c);
    }
  }

  /** Applying a theme and then clearing gives back what clearing alone gives. */
  lemma ClearedOfApplied(l: seq<string>, t: Theme)
    ensures Cleared(ApplyClasses(l, t)) == Cleared(l)
  {
    var c := Cleared(l);
    assert DarkClass !in c && AuroraClass !in c;
    RemoveAbsent(c, DarkClass);
    RemoveAbsent(c, AuroraClass);
    if t == Dark {
      assert ApplyClasses(l, t) == c + [DarkClass];
      RemoveAppend(c, [DarkClass], DarkClass);
      assert Remove([DarkClass], DarkClass) == [];
      assert c + [] == c;
    } else if t == Gradient {
      assert ApplyClasses(l, t) == c + [AuroraClass, DarkClass];
      RemoveAppend(c, [AuroraClass, DarkClass], DarkClass);
      assert Remove([AuroraClass, DarkClass], DarkClass) == [AuroraClass];
      RemoveAppend(c, [AuroraClass], AuroraClass);
      assert Remove([AuroraClass], AuroraClass) == [];
    }
  }

  /** Only the last theme applied matters: the effect leaves no trace of the theme before it. */
  lemma ApplyLastWins(l: seq<string>, a: Theme, b: Theme)
    ensures ApplyClasses(ApplyClasses(l, a), b) == ApplyClasses(l, b)
  {
    ClearedOfApplied(l, a);
  }

  // ---------------------------------------------------------------------------
  // Storage and migration
  // ---------------------------------------------------------------------------

  /** `if (localStorage.getItem(key))`: present and not the empty string. */
  predicate Truthy(storage: map<string, string>, key: string) {
    key in storage && storage[key] != ""
  }

  /** The theme the mount effect chooses: gradient until migrated, then the saved theme, else gradient. */
  function LoadedTheme(storage: map<string, string>): Theme {
    if !Truthy(storage, MigratedKey) then Gradient
    else if Truthy(storage, ThemeKey) then storage[ThemeKey]
    else Gradient
  }

  /** The storage after the mount effect: the migration writes the gradient theme and the flag once. */
  function MigratedStorage(storage: map<string, string>): map<string, string> {
    if !Truthy(storage, MigratedKey) then storage[ThemeKey := Gradient][MigratedKey := "true"]
    else storage
  }

  /**
   * After the mount and the theme effect, the storage holds the flag and the
   * applied theme, so the next start of the application loads that theme
   * again and writes nothing new: mounting is a fixed point across restarts.
   */
  lemma ReloadKeepsTheme(storage: map<string, string>)
    ensures var t := LoadedTheme(storage);
      var after := MigratedStorage(storage)[ThemeKey := t];
      Truthy(after, MigratedKey) && LoadedTheme(after) == t && MigratedStorage(after) == after
  {
    var t := LoadedTheme(storage);
    assert t != "";
    assert MigratedKey != ThemeKey;
  }

  /** Before the migration, whatever theme was saved, the gradient theme is loaded and saved. */
  lemma MigrationForcesGradient(storage: map<string, string>)
    requires !Truthy(storage, MigratedKey)
    ensures LoadedTheme(storage) == Gradient
    ensures MigratedStorage(storage)[ThemeKey] == Gradient && MigratedStorage(storage)[MigratedKey] == "true"
  {
    assert MigratedKey != ThemeKey;
  }

  /** After the migration, a saved non-empty name is loaded as it is, even one that is not a theme. */
  lemma MigratedLoadsSaved(storage: map<string, string>)
    requires Truthy(storage, MigratedKey)
    ensures Truthy(storage, ThemeKey) ==> LoadedTheme(storage) == storage[ThemeKey]
    ensures !Truthy(storage, ThemeKey) ==> LoadedTheme(storage) == Gradient
    ensures MigratedStorage(storage) == storage
  {
  }

  /** The hook's state, the root element's classes and the storage it writes. */
  class ThemeHook {
    var theme: Theme
    var classes: seq<string>
    var storage: map<string, string>

    /** `useState<Theme>('gradient')` on a document and a storage as they are. */
    constructor (classes: seq<string>, storage: map<string, string>)
      ensures theme == Gradient && this.classes == classes && this.storage == storage
    {
      theme := Gradient;
      this.classes := classes;
      this.storage := storage;
    }

    /** The mount effect: migrate once, otherwise restore the saved theme. */
    method Migrate()
      modifies this
      ensures theme == LoadedTheme(old(storage))
      ensures storage == MigratedStorage(old(storage))
      ensures classes == old(classes)
    {
      if !Truthy(storage, MigratedKey) {
        theme := Gradient;
        storage := storage[ThemeKey := Gradient];
        storage := storage[MigratedKey := "true"];
      } else if Truthy(storage, ThemeKey) {
        theme := storage[ThemeKey];
      } else {
        theme := Gradient;
      }
    }

    /** The theme effect for the theme `rendered` of the render it follows. */
    method ApplyEffect(rendered: Theme)
      modifies this
      ensures classes == ApplyClasses(old(classes), rendered)
      ensures storage == old(storage)[ThemeKey := rendered]
      ensures theme == old(theme)
    {
      var cleared := Remove(classes, DarkClass);
      cleared := Remove(cleared, AuroraClass);
      if rendered == Dark {
        classes := Add(cleared, DarkClass);
      } else if rendered == Gradient {
        classes := Add(Add(cleared, AuroraClass), DarkClass);
      } else {
        classes := cleared;
      }
      storage := storage[ThemeKey := rendered];
    }

    /**
     * The first render: both effects run for the initial theme, then, when
     * the mount effect changed the theme, the theme effect runs again.
     */
    method Mount()
      modifies this
      ensures theme == LoadedTheme(old(storage))
      ensures classes == ApplyClasses(old(classes), theme)
      ensures storage == MigratedStorage(old(storage))[ThemeKey := theme]
      ensures NoDup(old(classes)) ==> NoDup(classes)
    {
      var rendered := theme;
      ghost var before := classes;
      Migrate();
      ApplyEffect(rendered);
      if theme != rendered {
        ApplyLastWins(before, rendered, theme);
        ApplyEffect(theme);
      }
    }

    /** `setTheme`: a new theme re-renders and the theme effect runs; the same theme changes nothing. */
    method SetTheme(t: Theme)
      modifies this
      ensures theme == t
      ensures t != old(theme) ==> classes == ApplyClasses(old(classes), t) && storage == old(storage)[ThemeKey := t]
      ensures t == old(theme) ==> classes == old(classes) && storage == old(storage)
    {
      if t != theme {
        theme := t;
        ApplyEffect(t);
      }
    }
  }
}
