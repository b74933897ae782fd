/** The page header: the three-way theme toggle, the sun/moon icon choice and the
    mobile menu's open flag. */
module Header {
  import ThemeProvider

  /** `toggleTheme`'s choice of the next theme. */
  function ToggleTheme(theme: string): (r: string)
    ensures theme == "light" ==> r == "dark"
    ensures theme == "dark" ==> r == "system"
    ensures theme != "light" && theme != "dark" ==> r == "light"
  {
    if theme == "light" then "dark"
    else if theme == "dark" then "system"
    else "light"
  }

  /** The theme after `n` toggles. */
  function Toggles(theme: string, n: nat): string
    decreases n
  {
    if n == 0 then theme else Toggles(ToggleTheme(theme), n - 1)
  }

  predicate IsThemeValue(t: string) { t == "light" || t == "dark" || t == "system" }

  /** Three toggles from "light" come back to "light", through "dark" and "system". */
  lemma CycleFromLight()
    ensures Toggles("light", 1) == "dark" && Toggles("light", 2) == "system"
    ensures Toggles("light", 3) == "light"
  {
  }

  /** From any value, one of the first three toggles yields "light". */
  lemma ReachesLight(theme: string)
    ensures Toggles(theme, 1) == "light" || Toggles(theme, 2) == "light" || Toggles(theme, 3) == "light"
  {
  }

  /** After at least one toggle the theme is one of light, dark and system,
      whatever it started as (the empty pre-activation value included). */
  lemma {:induction false} TogglesStayInRange(theme: string, n: nat)
    requires n >= 1
    ensures IsThemeValue(Toggles(theme, n))
    decreases n
  {
    if n > 1 {
      TogglesStayInRange(ToggleTheme(theme), n - 1);
    }
  }

  /** Toggling has period three once the theme is a theme value. */
  lemma {:induction false} TogglesPeriodic(theme: string, n: nat)
    requires IsThemeValue(theme)
    ensures Toggles(theme, n + 3) == Toggles(theme, n)
    decreases n
  {
    if n == 0 {
      assert Toggles(theme, 3) == Toggles(ToggleTheme(ToggleTheme(ToggleTheme(theme))), 0);
    } else {
      TogglesPeriodic(ToggleTheme(theme), n - 1);
    }
  }

  /** The sun icon shows exactly for "dark"; "system" shows the moon. */
  predicate IsDark(theme: string) { theme == "dark" }

  lemma IsDarkOnlyForDark()
    ensures !IsDark("system") && !IsDark("light") && !IsDark("")
  {
  }

  /** The menu button flips the mobile menu and every mobile link closes it. */
  function MenuButton(isOpen: bool): (r: bool)
    ensures r != isOpen
  {
    !isOpen
  }

  function LinkClicked(isOpen: bool): (r: bool)
    ensures !r
  {
    false
  }

  /** The toggle button: the provider's current theme is advanced and handed to
      `setTheme`, which stores and applies it. */
  method ClickToggle(p: ThemeProvider.Provider) returns (threw: bool)
    modifies p`theme, p`storage, p`document
    ensures p.theme == ToggleTheme(old(p.theme))
    ensures threw <==> !p.hasWindow
    ensures threw ==> p.storage == old(p.storage) && p.document == old(p.document)
    ensures !threw ==> p.storage == old(p.storage)[p.config.storageKey := p.theme]
    ensures !threw ==> p.document == ThemeProvider.ApplyTheme(old(p.document), p.hasWindow, p.theme, p.config.attribute)
  {
    threw := p.SetTheme(ToggleTheme(p.theme));
  }
}
