/** The `darkTheme` store slice: a two-valued theme read once from the browser's key-value storage
    and written back to it on every toggle. */
module DarkTheme {

  import opened Common

  datatype Theme = Light | Dark

  /** The stored spelling of a theme. */
  function ThemeName(t: Theme): (r: string)
    ensures r == "light" || r == "dark"
    ensures r == "dark" <==> t == Dark
  {
    if t == Dark then "dark" else "light"
  }

  /** The initial theme: dark exactly when the saved "theme" entry is "dark"; a missing entry or
      any other text gives light. */
  function InitialTheme(storage: map<string, string>): (r: Theme)
    ensures r == Dark <==> "theme" in storage && storage["theme"] == "dark"
  {
    if "theme" in storage && storage["theme"] == "dark" then Dark else Light
  }

  /** The value after `darkToggle`: the other theme. */
  function Toggled(t: Theme): (r: Theme)
    ensures r != t
  {
    if t == Dark then Light else Dark
  }

  /** Toggling twice gives back the theme one started with. */
  lemma ToggleTwice(t: Theme)
    ensures Toggled(Toggled(t)) == t
  {
  }

  /** A theme round-trips through its stored spelling: after a toggle has saved the theme, the
      next start-up reads the same theme back. */
  lemma SavedThemeReadsBack(t: Theme, storage: map<string, string>)
    ensures InitialTheme(storage["theme" := ThemeName(t)]) == t
  {
  }

  class ThemeStore {
    var value: Theme
    /** The browser's key-value storage. */
    var storage: map<string, string>

    constructor (saved: map<string, string>)
      ensures value == InitialTheme(saved) && storage == saved
    {
      value := InitialTheme(saved);
      storage := saved;
    }

    method DarkToggle()
      modifies this
      ensures value == Toggled(old(value))
      ensures storage == old(storage)["theme" := ThemeName(value)]
    {
      value := if value == Dark then Light else Dark;
      storage := storage["theme" := ThemeName(value)];
    }
  }
}
