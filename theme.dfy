/** The display preference shared by every screen: read once from the store
    (or derived from the system colour scheme) and flipped by the settings
    switch. */
module Theme {
  import opened Platform

  const Light := "light"
  const Dark := "dark"

  /** The theme derived from `Appearance.getColorScheme()` (None is a null
      scheme): dark only for a dark scheme. */
  function SystemTheme(scheme: Option<string>): (t: string)
    ensures t == Dark <==> scheme == Some(Dark)
    ensures t == Light <==> scheme != Some(Dark)
  {
    if scheme == Some(Dark) then Dark else Light
  }

  /** The theme `loadTheme` sets: a truthy stored value wins as it is, with
      no check that it names a theme; otherwise the system's. */
  function LoadedTheme(stored: Option<string>, scheme: Option<string>): (t: string)
    ensures Truthy(stored) ==> t == stored.value
    ensures !Truthy(stored) ==> t == SystemTheme(scheme)
    ensures t != ""
  {
    if Truthy(stored) then stored.value else SystemTheme(scheme)
  }

  /** The theme `toggleTheme` moves to: dark from light, light from
      anything else. */
  function NextTheme(t: string): (r: string)
    ensures r == Dark <==> t == Light
    ensures r == Light <==> t != Light
  {
    if t == Light then Dark else Light
  }

  /** Toggling twice gives the theme back exactly when it was light or
      dark; any other stored value is lost. */
  lemma ToggleTwice(t: string)
    ensures NextTheme(NextTheme(t)) == t <==> t == Light || t == Dark
  {
  }

  /** A toggled theme is what a later load finds, whatever the system
      scheme is then. */
  lemma ToggledThemeIsReloaded(t: string, scheme: Option<string>)
    ensures LoadedTheme(Some(NextTheme(t)), scheme) == NextTheme(t)
  {
  }

  class ThemeProvider {
    var theme: string
    const store: KeyValueStore

    /** `useState('light')`: light until the stored preference is loaded. */
    constructor (store: KeyValueStore)
      ensures this.store == store && theme == Light
    {
      this.store := store;
      theme := Light;
    }

    /** `loadTheme`: only reads the store (its frame leaves the store out). */
    method LoadTheme(systemScheme: Option<string>)
      modifies this`theme
      ensures theme == LoadedTheme(Lookup(store.entries, ThemeKey), systemScheme)
    {
      var stored := store.GetItem(ThemeKey);
      if Truthy(stored) {
        theme := stored.value;
      } else {
        theme := SystemTheme(systemScheme);
      }
    }

    /** `toggleTheme`: flips the theme and writes the new one; afterwards
        the state and the stored preference agree. */
    method ToggleTheme()
      modifies this`theme, store
      ensures theme == NextTheme(old(theme))
      ensures store.entries == old(store.entries)[ThemeKey := theme]
      ensures Lookup(store.entries, ThemeKey) == Some(theme)
    {
      var newTheme := NextTheme(theme);
      theme := newTheme;
      store.SetItem(ThemeKey, newTheme);
    }
  }

  /** Load the preference, toggle it, then start again over the same store
      under a different system scheme: the restarted provider shows the
      toggled theme. */
  method ThemeSurvivesRestart(initial: map<string, string>, scheme: Option<string>, laterScheme: Option<string>)
    returns (toggled: string, restarted: string)
    ensures toggled == NextTheme(LoadedTheme(Lookup(initial, ThemeKey), scheme))
    ensures restarted == toggled
  {
    var store := new KeyValueStore(initial);
    var provider := new ThemeProvider(store);
    provider.LoadTheme(scheme);
    provider.ToggleTheme();
    toggled := provider.theme;
    var again := new ThemeProvider(store);
    again.LoadTheme(laterScheme);
    restarted := again.theme;
  }
}
