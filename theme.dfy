/** The light/dark theme switch that runs on every page (`handleThemeToggle`). */
module Theme {
  import opened Wrappers
  import opened Storage

  /** Storage key of the theme preference. */
  const ThemeKey: string := "theme"

  /** Icon classes: a sun offers the way back to light, a moon the way to dark. */
  const SunIcon: string := "bi bi-brightness-high"
  const MoonIcon: string := "bi bi-moon-stars"

  /** `updateThemeIcon`: the icon shown is a function of the body's `dark-mode` class. */
  function IconFor(dark: bool): (icon: string)
    ensures icon == SunIcon <==> dark
    ensures icon == MoonIcon <==> !dark
  {
    if dark then SunIcon else MoonIcon
  }

  /** The value written under `theme` after a click. */
  function StoredTheme(dark: bool): (value: string)
    ensures value == "dark" <==> dark
    ensures value == "light" <==> !dark
  {
    if dark then "dark" else "light"
  }

  /** Whether the body ends up in dark mode on page load: the class is added when the
      saved value is exactly `"dark"`, and is never removed. */
  function LoadedDarkMode(bodyDark: bool, saved: Option<string>): (dark: bool)
    ensures !bodyDark ==> (dark <==> saved == Some("dark"))
    ensures bodyDark ==> dark
  {
    bodyDark || saved == Some("dark")
  }

  /** A value written by a click restores the same mode on the next load of a page
      whose body starts in light mode. */
  lemma PersistRoundTrip(dark: bool)
    ensures LoadedDarkMode(false, Some(StoredTheme(dark))) == dark
  {
  }

  /** The theme controller: `dark-mode` on the body, the icon's class, and the store. */
  class ThemeController {
    var darkMode: bool
    var iconClass: string
    const storage: LocalStorage

    ghost predicate Valid()
      reads this
    {
      iconClass == IconFor(darkMode)
    }

    /** Page load: apply the saved preference, then set the icon. `bodyDark` is whether
        the page's markup already has the `dark-mode` class. */
    constructor (storage: LocalStorage, bodyDark: bool)
      ensures Valid()
      ensures this.storage == storage
      ensures darkMode == LoadedDarkMode(bodyDark, storage.GetItem(ThemeKey))
    {
      this.storage := storage;
      var saved := storage.GetItem(ThemeKey);
      var dark := LoadedDarkMode(bodyDark, saved);
      darkMode := dark;
      iconClass := IconFor(dark);
    }

    /** A click on the toggle: flip the class, refresh the icon, persist the new mode. */
    method Click()
      requires Valid()
      modifies this, storage
      ensures Valid()
      ensures darkMode == !old(darkMode)
      ensures storage.items == old(storage.items)[ThemeKey := StoredTheme(darkMode)]
      ensures storage.GetItem(ThemeKey) == Some("dark") <==> darkMode
    {
      darkMode := !darkMode;
      iconClass := IconFor(darkMode);
      storage.SetItem(ThemeKey, StoredTheme(darkMode));
    }
  }

  /** Two clicks restore the mode and the icon, and leave the stored value naming the
      original mode. */
  method ClickTwice(t: ThemeController)
    requires t.Valid()
    modifies t, t.storage
    ensures t.Valid()
    ensures t.darkMode == old(t.darkMode) && t.iconClass == old(t.iconClass)
    ensures t.storage.items == old(t.storage.items)[ThemeKey := StoredTheme(old(t.darkMode))]
  {
    t.Click();
    t.Click();
  }
}
