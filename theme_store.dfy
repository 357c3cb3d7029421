/** The colour scheme (src/store/useThemeStore.ts): light or dark, light at
    first. */
module ThemeStore {

  datatype Theme = Light | Dark

  /** The other theme. */
  function Toggled(t: Theme): (r: Theme)
    ensures r != t
  {
    if t == Light then Dark else Light
  }

  /** Toggling is an involution. */
  lemma ToggledTwice(t: Theme)
    ensures Toggled(Toggled(t)) == t
  {
  }

  class ThemeStore {
    var theme: Theme

    constructor ()
      ensures theme == Light
    {
      theme := Light;
    }

    method SetTheme(t: Theme)
      modifies this
      ensures theme == t
    {
      theme := t;
    }

    method ToggleTheme()
      modifies this
      ensures theme == Toggled(old(theme))
      ensures old(theme) == Light ==> theme == Dark
      ensures old(theme) == Dark ==> theme == Light
    {
      var current := theme;
      theme := if current == Light then Dark else Light;
    }
  }
}
