/**
 * The theme toggle: a theme that is 'light' or 'dark', the `dark` class on
 * the root element (`darkClass`) and the `theme` value in storage. The
 * system colour-scheme preference is a Boolean input.
 */
module Theme {
  import opened Wrappers
  import opened Storage

  const ThemeKey: string := "theme"
  const Light: string := "light"
  const Dark: string := "dark"

  /** The theme after a click: 'light' becomes 'dark' and anything else 'light'. */
  function Toggled(theme: string): (r: string)
    ensures r == Light || r == Dark
    ensures r == Dark <==> theme == Light
    ensures r != theme
  {
    if theme == Light then Dark else Light
  }

  /** Two clicks give back 'light' or 'dark'; any other saved value ends as 'dark'. */
  lemma ToggleTwice(theme: string)
    ensures theme == Light || theme == Dark ==> Toggled(Toggled(theme)) == theme
    ensures theme != Light && theme != Dark ==> Toggled(Toggled(theme)) == Dark
  {
  }

  /** The initial theme: a saved non-empty value, otherwise the system preference. */
  function InitialTheme(saved: Option<string>, prefersDark: bool): (r: string)
    ensures saved.Some? && saved.value != "" ==> r == saved.value
    ensures saved.None? || saved.value == "" ==> (r == Light || r == Dark) && (r == Dark <==> prefersDark)
  {
    if saved.Some? && saved.value != "" then saved.value
    else if prefersDark then Dark else Light
  }

  /** The value written to storage for a theme: 'dark' for 'dark', 'light' for any other. */
  function StoredTheme(theme: string): (r: string)
    ensures r == Light || r == Dark
    ensures r == Dark <==> theme == Dark
  {
    if theme == Dark then Dark else Light
  }

  /** A stored theme is adopted unchanged at the next start, whatever the system prefers. */
  lemma StoredThemeReloads(theme: string, prefersDark: bool)
    ensures InitialTheme(Some(StoredTheme(theme)), prefersDark) == StoredTheme(theme)
    ensures theme == Light || theme == Dark ==> InitialTheme(Some(StoredTheme(theme)), prefersDark) == theme
  {
  }

  class ThemeToggle {
    var theme: string
    var darkClass: bool
    const store: LocalStorage

    /** The root's class and the stored value agree with the theme. */
    ghost predicate Applied()
      reads this, store
    {
      darkClass == (theme == Dark) && store.GetItem(ThemeKey) == Some(StoredTheme(theme))
    }

    /** The first render: the theme starts as 'light'; the root keeps whatever class it had. */
    constructor (store: LocalStorage, rootIsDark: bool)
      ensures this.store == store && theme == Light && darkClass == rootIsDark
    {
      this.store := store;
      theme := Light;
      darkClass := rootIsDark;
    }

    /** The apply effect for the theme value `t` it was rendered with. */
    method Apply(t: string)
      modifies this`darkClass, store
      ensures darkClass == (t == Dark)
      ensures store.items == old(store.items)[ThemeKey := StoredTheme(t)]
    {
      if t == Dark {
        darkClass := true;
        store.SetItem(ThemeKey, Dark);
      } else {
        darkClass := false;
        store.SetItem(ThemeKey, Light);
      }
    }

    /**
     * Mounting: the initial-theme effect reads storage, then the apply effect
     * runs with the first render's theme; it runs again, with the chosen
     * theme, only when that choice differs from the current theme.
     */
    method Mount(prefersDark: bool)
      modifies this`theme, this`darkClass, store
      ensures theme == InitialTheme(old(store.GetItem(ThemeKey)), prefersDark)
      ensures Applied()
      ensures store.items == old(store.items)[ThemeKey := StoredTheme(theme)]
    {
      var saved := store.GetItem(ThemeKey);
      var initial := InitialTheme(saved, prefersDark);
      Apply(theme);
      if initial != theme {
        theme := initial;
        Apply(theme);
      }
    }

    /** A click: the theme flips, which always changes it, so the apply effect runs. */
    method Toggle()
      modifies this`theme, this`darkClass, store
      ensures theme == Toggled(old(theme))
      ensures Applied()
      ensures store.items == old(store.items)[ThemeKey := theme]
    {
      theme := Toggled(theme);
      Apply(theme);
    }
  }
}
