/** The theme slice of the application store. The store is a map from state
    keys to values; `set` merges the keys it is given into the store and
    leaves every other key (those of the other slices) as it was. */
module ThemeSlice {
  import opened MapModel

  type Store = map<string, Value>

  const ThemeKey: string := "theme"
  const Light: Value := Str("light")
  const Dark: Value := Str("dark")

  /** The state the slice contributes to a fresh store. */
  function InitialTheme(): (s: Store)
    ensures ThemeKey in s && s[ThemeKey] == Light
  {
    map[ThemeKey := Light]
  }

  /** `state.theme`, `undefined` when the store has no theme. */
  function Theme(s: Store): Value
  {
    if ThemeKey in s then s[ThemeKey] else Undefined
  }

  /** `set(partial)`: the given keys replace or join the store's. */
  function Merge(s: Store, partial: Store): (r: Store)
    ensures r.Keys == s.Keys + partial.Keys
    ensures forall k :: k in partial ==> r[k] == partial[k]
    ensures forall k :: k in s && k !in partial ==> r[k] == s[k]
  {
    map k | k in s.Keys + partial.Keys :: if k in partial then partial[k] else s[k]
  }

  /** `setTheme(newTheme)`. */
  function SetTheme(s: Store, newTheme: Value): Store
  {
    Merge(s, map[ThemeKey := newTheme])
  }

  /** `toggleTheme()`: `"dark"` from exactly `"light"`, `"light"` from
      anything else. */
  function ToggleTheme(s: Store): Store
  {
    Merge(s, map[ThemeKey := if Theme(s) == Light then Dark else Light])
  }

  /** `setTheme` stores exactly the value it is given and touches no other
      slice's state. */
  lemma SetThemeStores(s: Store, newTheme: Value)
    ensures Theme(SetTheme(s, newTheme)) == newTheme
    ensures forall k :: k in s && k != ThemeKey ==> k in SetTheme(s, newTheme) && SetTheme(s, newTheme)[k] == s[k]
    ensures SetTheme(s, newTheme).Keys == s.Keys + {ThemeKey}
  {
  }

  /** `toggleTheme` turns light into dark and every other theme, a missing
      one or an arbitrary string included, into light; it touches no other
      slice's state. */
  lemma ToggleThemeEffect(s: Store)
    ensures Theme(s) == Light ==> Theme(ToggleTheme(s)) == Dark
    ensures Theme(s) != Light ==> Theme(ToggleTheme(s)) == Light
    ensures Theme(ToggleTheme(s)) == Light || Theme(ToggleTheme(s)) == Dark
    ensures forall k :: k in s && k != ThemeKey ==> k in ToggleTheme(s) && ToggleTheme(s)[k] == s[k]
  {
  }

  /** From light or dark, two toggles give back the same store. */
  lemma ToggleTwice(s: Store)
    requires Theme(s) == Light || Theme(s) == Dark
    ensures ToggleTheme(ToggleTheme(s)) == s
  {
    var r := ToggleTheme(ToggleTheme(s));
    assert r.Keys == s.Keys;
    assert forall k :: k in s ==> r[k] == s[k];
  }

  /** From any other theme, two toggles end on dark. */
  lemma ToggleTwiceOther(s: Store)
    requires Theme(s) != Light && Theme(s) != Dark
    ensures Theme(ToggleTheme(ToggleTheme(s))) == Dark
  {
  }
}
