/** The dashboard's colour theme.  The component keeps it as a string slot
    that starts at "light" and is only ever written by the toggle. */
module Theme {

  const Light: string := "light"
  const Dark: string := "dark"

  /** A theme value the dashboard can hold. */
  predicate IsTheme(t: string) {
    t == Light || t == Dark
  }

  /** The value the toggle writes: "light" becomes "dark" and every other
      value, "dark" included, becomes "light". */
  function Toggled(t: string): (r: string)
    ensures IsTheme(r)
    ensures r == Dark <==> t == Light
    ensures IsTheme(t) ==> r != t
  {
    if t == Light then Dark else Light
  }

  /** Toggling twice restores a valid theme. */
  lemma ToggleTwice(t: string)
    requires IsTheme(t)
    ensures Toggled(Toggled(t)) == t
  {
  }

  /** A value that is not a theme is normalised by one toggle: the first
      toggle lands on "light", the second on "dark". */
  lemma ToggleFromInvalid(t: string)
    requires !IsTheme(t)
    ensures Toggled(t) == Light && Toggled(Toggled(t)) == Dark
  {
  }
}
