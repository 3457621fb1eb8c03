/**
 * The colour-mode context (src/context/ThemeContext.jsx): the saved mode or
 * 'dark' to start with, and a toggle that persists every new mode.
 */
module Theme {
  import opened Wrappers
  import opened LocalStorage

  /** `localStorage.getItem('themeMode') || 'dark'` */
  function InitialMode(saved: Option<Stored>): (mode: string)
    ensures mode != ""
    ensures (saved.Some? && saved.value.Text? && saved.value.text != "") ==> mode == saved.value.text
    ensures !(saved.Some? && saved.value.Text? && saved.value.text != "") ==> mode == "dark"
  {
    if saved.Some? && saved.value.Text? && saved.value.text != "" then saved.value.text else "dark"
  }

  /** `prevMode === 'light' ? 'dark' : 'light'` */
  function Toggled(mode: string): (r: string)
    ensures r == "dark" || r == "light"
    ensures r == "dark" <==> mode == "light"
  {
    if mode == "light" then "dark" else "light"
  }

  /** Two toggles return to the start from either known mode; any other mode settles on 'dark'. */
  lemma ToggleTwice(mode: string)
    ensures mode == "light" || mode == "dark" ==> Toggled(Toggled(mode)) == mode
    ensures mode != "light" ==> Toggled(Toggled(mode)) == "dark"
  {
  }

  class ColorMode {
    const storage: Store
    var mode: string

    /** The lazy initial state reads the saved mode. */
    constructor (storage: Store)
      ensures this.storage == storage && mode == InitialMode(storage.Get(ThemeModeKey))
    {
      this.storage := storage;
      mode := InitialMode(storage.Get(ThemeModeKey));
    }

    /** `toggleColorMode()`: flip the mode and persist the new one. */
    method ToggleColorMode()
      modifies this, storage
      ensures mode == Toggled(old(mode))
      ensures storage.items == old(storage.items)[ThemeModeKey := Text(mode)]
    {
      mode := Toggled(mode);
      storage.Set(ThemeModeKey, Text(mode));
    }
  }
}
