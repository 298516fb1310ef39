/**
 * The theme button of the title bar (src/components/ui/title-bar.tsx):
 * `cycleTheme` and the icon and label the button shows. The window
 * buttons only call into the Electron bridge and are not part of this model.
 */
module TitleBar {
  import opened Wrappers
  import opened UseTheme

  /** The cycle order of the button. */
  const Themes: seq<Theme> := [Light, Dark, Gradient]

  /** `Array.prototype.indexOf`: the first position holding `x`, or -1. */
  function PositionOf(s: seq<Theme>, x: Theme): (r: int)
    ensures -1 <= r < |s|
    ensures r == -1 <==> x !in s
    ensures r >= 0 ==> s[r] == x && x !in s[..r]
    decreases |s|
  {
    if |s| == 0 then -1
    else if s[0] == x then 0
    else
      var i := PositionOf(s[1..], x);
      assert s[1..][..if i >= 0 then i else 0] == s[1..if i >= 0 then i + 1 else 1];
      if i == -1 then -1 else i + 1
  }

  /** `cycleTheme`: the theme after the current one, wrapping round; a name not in the list (index -1) moves to light. */
  function Cycle(t: Theme): (r: Theme)
    ensures r in Themes
    ensures t !in Themes ==> r == Light
  {
    var i := PositionOf(Themes, t);
    Themes[(i + 1) % |Themes|]
  }

  /** The order of the cycle: light, dark, gradient and back to light. */
  lemma CycleOrder()
    ensures Cycle(Light) == Dark && Cycle(Dark) == Gradient && Cycle(Gradient) == Light
  {
    assert Themes[0] == Light && Themes[1] == Dark && Themes[2] == Gradient;
  }

  /** Three presses bring a theme of the list back; any name is in the cycle after one press. */
  lemma CycleThrice(t: Theme)
    ensures t in Themes ==> Cycle(Cycle(Cycle(t))) == t
    ensures Cycle(Cycle(Cycle(Cycle(t)))) == Cycle(t)
  {
    CycleOrder();
  }

  /** A press always changes the theme. */
  lemma CycleMoves(t: Theme)
    ensures Cycle(t) != t
  {
    CycleOrder();
  }

  datatype Icon = Sun | Moon | Sparkles

  /** `getThemeIcon`; a name that is none of the three falls through the switch to `undefined`. */
  function ThemeIcon(t: Theme): Option<Icon> {
    if t == Light then Some(Sun)
    else if t == Dark then Some(Moon)
    else if t == Gradient then Some(Sparkles)
    else None
  }

  /** `getThemeLabel` */
  function ThemeLabel(t: Theme): Option<string> {
    if t == Light then Some("浅色")
    else if t == Dark then Some("深色")
    else if t == Gradient then Some("渐变")
    else None
  }

  /** The button shows an icon and a label exactly for the three themes, a different one for each. */
  lemma IconsAndLabelsDistinct(t: Theme, u: Theme)
    ensures ThemeIcon(t).Some? <==> t in Themes
    ensures ThemeLabel(t).Some? <==> t in Themes
    ensures t in Themes && u in Themes && t != u ==> ThemeIcon(t) != ThemeIcon(u) && ThemeLabel(t) != ThemeLabel(u)
  {
    assert Themes == [Light, Dark, Gradient];
  }
}
