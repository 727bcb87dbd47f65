/**
 * The two stored preferences (`initializeTheme`, `toggleTheme`,
 * `updateThemeToggle`, `initializeLanguage`): a value read from local storage
 * with `getItem(key) || default`, and the light/dark toggle with the icon and
 * tooltip of its button.
 */
module Theme {
  import opened Wrappers

  const ThemeKey := "theme"
  const LanguageKey := "language"
  const Light := "light"
  const Dark := "dark"
  const DefaultLanguage := "en"

  /** The sun shown while the page is dark (U+2600 with an emoji variation selector). */
  const SunIcon := "\U{2600}\U{FE0F}"
  /** The crescent moon shown otherwise. */
  const MoonIcon := "\U{1F319}"
  const ToLightTooltip := "Switch to light mode"
  const ToDarkTooltip := "Switch to dark mode"

  /** `localStorage.getItem(key) || fallback`: a missing entry and an empty one both give the fallback. */
  function StoredOr(storage: map<string, string>, key: string, fallback: string): (r: string)
    ensures (key in storage && storage[key] != "") ==> r == storage[key]
    ensures (key !in storage || storage[key] == "") ==> r == fallback
  {
    if key in storage && storage[key] != "" then storage[key] else fallback
  }

  /** The theme applied at load; any non-empty stored value is kept as it is, recognised or not. */
  function InitialTheme(storage: map<string, string>): string {
    StoredOr(storage, ThemeKey, Light)
  }

  /** The language requested at load; it is not checked against the supported languages. */
  function InitialLanguage(storage: map<string, string>): string {
    StoredOr(storage, LanguageKey, DefaultLanguage)
  }

  /** The theme after a click, from the current `data-theme` attribute (`None` when absent). */
  function Toggled(current: Option<string>): (next: string)
    ensures next == Light || next == Dark
    ensures next == Light <==> current == Some(Dark)
  {
    if current == Some(Dark) then Light else Dark
  }

  /** The toggle button's text for a theme. */
  function ToggleIcon(theme: string): (icon: string)
    ensures icon == SunIcon <==> theme == Dark
    ensures icon == MoonIcon <==> theme != Dark
  {
    if theme == Dark then SunIcon else MoonIcon
  }

  /** The toggle button's tooltip for a theme: it names the theme a click switches to. */
  function ToggleTooltip(theme: string): (tip: string)
    ensures tip == ToLightTooltip <==> theme == Dark
    ensures tip == ToDarkTooltip <==> theme != Dark
  {
    if theme == Dark then ToLightTooltip else ToDarkTooltip
  }

  // ---------------------------------------------------------------- properties

  /** Toggling twice from light or dark gives the starting theme back. */
  lemma ToggleTwice(theme: string)
    requires theme == Light || theme == Dark
    ensures Toggled(Some(Toggled(Some(theme)))) == theme
  {
  }

  /** From an unrecognised (or absent) theme one click gives dark and a second gives light, not the original. */
  lemma ToggleFromOther(current: Option<string>)
    requires current != Some(Light) && current != Some(Dark)
    ensures Toggled(current) == Dark
    ensures Toggled(Some(Toggled(current))) == Light
  {
  }

  /** The tooltip always offers the theme that a click would produce. */
  lemma TooltipNamesNextTheme(theme: string)
    ensures ToggleTooltip(theme) == (if Toggled(Some(theme)) == Light then ToLightTooltip else ToDarkTooltip)
  {
  }

  /** With nothing usable in storage the page starts light and in English. */
  lemma Defaults(storage: map<string, string>)
    requires ThemeKey !in storage || storage[ThemeKey] == ""
    requires LanguageKey !in storage || storage[LanguageKey] == ""
    ensures InitialTheme(storage) == Light && InitialLanguage(storage) == DefaultLanguage
  {
  }

  /** A stored theme or language, once written, is what the next load reads. */
  lemma StoredValueIsRead(storage: map<string, string>, key: string, value: string, fallback: string)
    requires value != ""
    ensures StoredOr(storage[key := value], key, fallback) == value
  {
  }
}
