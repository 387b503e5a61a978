/**
 * The global UI slice: whether the sidebar is collapsed, whether dark mode
 * is on, and the `darkMode` value persisted in the browser's storage, which
 * the reducers write only when a window exists.
 */
module GlobalState {
  import opened Wrappers

  /** `String(b)` for a boolean. */
  function BoolString(b: bool): (s: string)
    ensures s == "true" || s == "false"
  {
    if b then "true" else "false"
  }

  /** Distinct flags persist distinct values. */
  lemma BoolStringInjective(a: bool, b: bool)
    ensures BoolString(a) == BoolString(b) <==> a == b
  {
    if a != b {
      assert BoolString(a)[0] != BoolString(b)[0];
    }
  }

  class GlobalSlice {
    /** Whether code runs in a browser (`typeof window !== 'undefined'`). */
    const hasWindow: bool
    var isSidebarCollapsed: bool
    var isDarkMode: bool
    /** The persisted `darkMode` entry; `None` when nothing is stored. */
    var storedDarkMode: Option<string>

    /**
     * `initialState`: the sidebar open and dark mode following the system
     * preference when a window exists, off otherwise. Nothing is written.
     */
    constructor (hasWindow: bool, systemPrefersDark: bool, stored: Option<string>)
      ensures this.hasWindow == hasWindow
      ensures !isSidebarCollapsed
      ensures isDarkMode == (hasWindow && systemPrefersDark)
      ensures storedDarkMode == stored
    {
      this.hasWindow := hasWindow;
      isSidebarCollapsed := false;
      isDarkMode := hasWindow && systemPrefersDark;
      storedDarkMode := stored;
    }

    /** `setIsSidebarCollapsed`: only the sidebar flag changes. */
    method SetIsSidebarCollapsed(payload: bool)
      modifies this`isSidebarCollapsed
      ensures isSidebarCollapsed == payload
    {
      isSidebarCollapsed := payload;
    }

    /** `setIsDarkMode`: sets the flag and, with a window, persists it. */
    method SetIsDarkMode(payload: bool)
      modifies this`isDarkMode, this`storedDarkMode
      ensures isDarkMode == payload
      ensures storedDarkMode == if hasWindow then Some(BoolString(payload)) else old(storedDarkMode)
      ensures hasWindow ==> storedDarkMode == Some(BoolString(isDarkMode))
    {
      isDarkMode := payload;
      if hasWindow {
        storedDarkMode := Some(BoolString(payload));
      }
    }

    /**
     * `toggleDarkMode`: flips the flag, then, with a window, persists the
     * negation of the new flag, which is the flag from before the toggle and
     * never the new one.
     */
    method ToggleDarkMode()
      modifies this`isDarkMode, this`storedDarkMode
      ensures isDarkMode == !old(isDarkMode)
      ensures storedDarkMode == if hasWindow then Some(BoolString(old(isDarkMode))) else old(storedDarkMode)
      ensures hasWindow ==> storedDarkMode != Some(BoolString(isDarkMode))
    {
      isDarkMode := !isDarkMode;
      if hasWindow {
        storedDarkMode := Some(BoolString(!isDarkMode));
      }
      BoolStringInjective(isDarkMode, !isDarkMode);
    }
  }

  /**
   * Two toggles restore the flag and leave the sidebar alone; with a window the
   * stored value then holds the opposite of the flag.
   */
  method ToggleTwice(s: GlobalSlice)
    modifies s
    ensures s.isDarkMode == old(s.isDarkMode)
    ensures s.isSidebarCollapsed == old(s.isSidebarCollapsed)
    ensures s.hasWindow ==> s.storedDarkMode == Some(BoolString(!s.isDarkMode))
    ensures !s.hasWindow ==> s.storedDarkMode == old(s.storedDarkMode)
  {
    s.ToggleDarkMode();
    s.ToggleDarkMode();
  }
}
