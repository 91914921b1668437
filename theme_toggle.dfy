/**
 * The light / dark / system theme button (src/components/layout/ThemeToggle.tsx).
 * The theme store (next-themes) is reduced to the theme it holds: absent
 * before it is known, and otherwise the last name set.
 */
module ThemeToggle {
  import opened Common

  const THEMES: seq<string> := ["light", "dark", "system"]

  /** `cycle`: dark to light, light to system, anything else to dark. */
  function Cycle(theme: Option<string>): (r: string)
    ensures r in THEMES
    ensures theme.Some? && theme.value == "dark" <==> r == "light"
    ensures theme.Some? && theme.value == "light" <==> r == "system"
  {
    if theme == Some("dark") then "light"
    else if theme == Some("light") then "system"
    else "dark"
  }

  datatype Icon = Sun | Moon | SystemIcon

  /** The icon: the sun for light, the moon for dark, the screen for anything else. */
  function IconOf(theme: Option<string>): Icon {
    if theme == Some("light") then Sun
    else if theme == Some("dark") then Moon
    else SystemIcon
  }

  /** The button's title and accessible label. */
  function Label(theme: Option<string>): string {
    if theme == Some("light") then "Mode clair"
    else if theme == Some("dark") then "Mode sombre"
    else "Préférence système"
  }

  /** Three clicks bring every one of the three themes back, passing through the other two. */
  lemma CycleOfThree(t: string)
    requires t in THEMES
    ensures Cycle(Some(Cycle(Some(Cycle(Some(t)))))) == t
    ensures {t, Cycle(Some(t)), Cycle(Some(Cycle(Some(t))))} == {"light", "dark", "system"}
  {
  }

  /** An absent or unknown theme goes to dark on the first click, and then joins the cycle. */
  lemma UnknownGoesDark(theme: Option<string>)
    requires theme != Some("dark") && theme != Some("light")
    ensures Cycle(theme) == "dark"
  {
  }

  /** Every click changes the icon, and the icon and the label name the same theme. */
  lemma ClickChangesIcon(theme: Option<string>)
    ensures IconOf(Some(Cycle(theme))) != IconOf(theme)
    ensures IconOf(theme) == Sun <==> Label(theme) == "Mode clair"
    ensures IconOf(theme) == Moon <==> Label(theme) == "Mode sombre"
  {
  }

  datatype View = Placeholder | Button(icon: Icon, title: string)

  class Toggle {
    var mounted: bool
    var theme: Option<string>

    constructor (theme: Option<string>)
      ensures !mounted && this.theme == theme
    {
      mounted := false;
      this.theme := theme;
    }

    /** What renders: an empty placeholder until mounted on the client, then the button. */
    function Render(): (v: View)
      reads this
      ensures v.Placeholder? <==> !mounted
      ensures v.Button? ==> v.icon == IconOf(theme) && v.title == Label(theme)
    {
      if !mounted then Placeholder else Button(IconOf(theme), Label(theme))
    }

    /** The mount effect. */
    method Mount()
      modifies this
      ensures mounted && theme == old(theme)
    {
      mounted := true;
    }

    /** A click on the button, which exists only once mounted. */
    method Click()
      requires mounted
      modifies this
      ensures mounted && theme == Some(Cycle(old(theme)))
      ensures Render().icon != old(Render()).icon
    {
      ClickChangesIcon(theme);
      theme := Some(Cycle(theme));
    }
  }
}
