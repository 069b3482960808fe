/** The `theme` slice: one dark-mode flag, dark by default. */
module ThemeSlice {

  datatype ThemeState = ThemeState(isDarkMode: bool)

  const InitialState := ThemeState(true)

  datatype ThemeAction = ToggleTheme | SetTheme(value: bool)

  function Reduce(s: ThemeState, a: ThemeAction): ThemeState
  {
    match a
    case ToggleTheme => s.(isDarkMode := !s.isDarkMode)
    case SetTheme(b) => s.(isDarkMode := b)
  }

  class ThemeStore {
    var isDarkMode: bool

    constructor ()
      ensures isDarkMode
    {
      isDarkMode := true;
    }

    method Dispatch(a: ThemeAction)
      modifies this
      ensures ThemeState(isDarkMode) == Reduce(ThemeState(old(isDarkMode)), a)
    {
      match a {
        case ToggleTheme => isDarkMode := !isDarkMode;
        case SetTheme(b) => isDarkMode := b;
      }
    }
  }

  /** A toggle negates the flag, two restore it; `setTheme(b)` sets it to
      `b` whatever it was, is idempotent, and a toggle after it gives `!b`. */
  lemma ThemeLaws(s: ThemeState, b: bool)
    ensures Reduce(s, ToggleTheme).isDarkMode == !s.isDarkMode
    ensures Reduce(Reduce(s, ToggleTheme), ToggleTheme) == s
    ensures Reduce(s, SetTheme(b)) == ThemeState(b)
    ensures Reduce(Reduce(s, SetTheme(b)), SetTheme(b)) == Reduce(s, SetTheme(b))
    ensures Reduce(Reduce(s, SetTheme(b)), ToggleTheme).isDarkMode == !b
  {
  }

  /** The app starts in dark mode; one toggle makes it light. */
  lemma StartsDark()
    ensures InitialState.isDarkMode && !Reduce(InitialState, ToggleTheme).isDarkMode
  {
  }
}
