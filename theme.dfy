/** The light/dark theme switch: the page's look and the preference kept in
    local storage under "musicPlayerTheme". */
module Theme {

  /** The storage key of the theme preference. */
  const ThemeKey: string := "musicPlayerTheme"

  /** The two looks the page can take. */
  datatype Look = Light | Dark

  /** The string under which a look is stored. */
  function Name(look: Look): string {
    match look
    case Light => "light"
    case Dark => "dark"
  }

  /** The look `applyTheme` picks: light only for exactly "light". */
  function LookOf(theme: string): (look: Look)
    ensures look == Light <==> theme == "light"
    ensures Name(look) == theme <==> theme in {"light", "dark"}
  {
    if theme == "light" then Light else Dark
  }

  /** `localStorage.getItem(ThemeKey) || 'dark'`: a missing or empty entry
      reads as "dark". */
  function SavedTheme(store: map<string, string>): (theme: string)
    ensures theme != ""
    ensures ThemeKey !in store ==> theme == "dark"
    ensures ThemeKey in store && store[ThemeKey] == "" ==> theme == "dark"
    ensures ThemeKey in store && store[ThemeKey] != "" ==> theme == store[ThemeKey]
  {
    if ThemeKey in store && store[ThemeKey] != "" then store[ThemeKey] else "dark"
  }

  /** The theme the click handler asks for: "light" after "dark", and "dark"
      after anything else. */
  function Flipped(current: string): (next: string)
    ensures next in {"light", "dark"}
    ensures current in {"light", "dark"} ==> next != current
    ensures current !in {"light", "dark"} ==> next == "dark"
  {
    if current == "dark" then "light" else "dark"
  }

  /** The storage after `applyTheme(theme)`: the normalised name under the
      theme key, every other key untouched. */
  function Applied(store: map<string, string>, theme: string): (s: map<string, string>)
    ensures ThemeKey in s && (s[ThemeKey] == "light" <==> theme == "light")
    ensures s[ThemeKey] in {"light", "dark"}
    ensures forall k :: k in store && k != ThemeKey ==> k in s && s[k] == store[k]
    ensures forall k :: k in s ==> k in store || k == ThemeKey
  {
    store[ThemeKey := Name(LookOf(theme))]
  }

  /** The storage after one click on the theme button: "light" exactly when
      the preference read as "dark", other keys untouched. */
  function Clicked(store: map<string, string>): (s: map<string, string>)
    ensures ThemeKey in s && s[ThemeKey] in {"light", "dark"}
    ensures s[ThemeKey] == "light" <==> SavedTheme(store) == "dark"
    ensures forall k :: k in store && k != ThemeKey ==> k in s && s[k] == store[k]
    ensures forall k :: k in s ==> k in store || k == ThemeKey
  {
    Applied(store, Flipped(SavedTheme(store)))
  }

  /** The stored preference holds one of the two theme names. */
  predicate Normalised(store: map<string, string>) {
    ThemeKey in store && store[ThemeKey] in {"light", "dark"}
  }

  /** Loading the page normalises the preference: whatever was stored, the
      stored value afterwards is "light" or "dark", and "light" exactly when
      "light" was stored before. */
  lemma LoadNormalises(store: map<string, string>)
    ensures var after := Applied(store, SavedTheme(store));
      Normalised(after) &&
      (after[ThemeKey] == "light" <==> ThemeKey in store && store[ThemeKey] == "light")
  {
  }

  /** Each click flips a normalised preference, and the page's look with it. */
  lemma ClickFlips(store: map<string, string>)
    requires Normalised(store)
    ensures Normalised(Clicked(store))
    ensures Clicked(store)[ThemeKey] != store[ThemeKey]
    ensures LookOf(SavedTheme(Clicked(store))) != LookOf(SavedTheme(store))
  {
  }

  /** Two clicks give back the stored preference, and leave the rest of the
      storage as it was. */
  lemma ClickTwiceRestores(store: map<string, string>)
    requires Normalised(store)
    ensures Clicked(Clicked(store)) == store
  {
    var twice := Clicked(Clicked(store));
    assert twice[ThemeKey] == store[ThemeKey];
    assert twice.Keys == store.Keys;
  }

  /** With nothing stored, the page reads as dark and the first click turns it light. */
  lemma FirstClickFromNothingIsLight(store: map<string, string>)
    requires ThemeKey !in store
    ensures LookOf(SavedTheme(store)) == Dark
    ensures Clicked(store)[ThemeKey] == "light"
  {
  }

  /** A stored value that is neither theme name nor empty (written after the
      page loaded) reads as dark, and a click leaves the page dark. */
  lemma ClickOnForeignValueStaysDark(store: map<string, string>)
    requires ThemeKey in store && store[ThemeKey] !in {"light", "dark", ""}
    ensures LookOf(SavedTheme(store)) == Dark
    ensures Clicked(store)[ThemeKey] == "dark"
  {
  }

  /** The theme button and the storage it writes to. */
  class ThemeSwitch {
    var store: map<string, string>
    /** Which set of body classes the page carries. */
    var look: Look

    /** `initThemeSwitch`: applies the saved preference, "dark" when none. */
    constructor (initial: map<string, string>)
      ensures store == Applied(initial, SavedTheme(initial))
      ensures look == LookOf(SavedTheme(initial))
      ensures Normalised(store) && look == LookOf(store[ThemeKey])
    {
      store := initial;
      look := Dark;
      new;
      var savedTheme := ReadTheme();
      ApplyTheme(savedTheme);
    }

    /** `localStorage.getItem(ThemeKey) || 'dark'`. */
    method ReadTheme() returns (theme: string)
      ensures theme == SavedTheme(store)
    {
      if ThemeKey in store && store[ThemeKey] != "" {
        theme := store[ThemeKey];
      } else {
        theme := "dark";
      }
    }

    /** `applyTheme`: sets the look and stores its normalised name. */
    method ApplyTheme(theme: string)
      modifies this
      ensures look == LookOf(theme)
      ensures store == Applied(old(store), theme)
      ensures store[ThemeKey] == Name(look)
    {
      if theme == "light" {
        look := Light;
        store := store[ThemeKey := "light"];
      } else {
        look := Dark;
        store := store[ThemeKey := "dark"];
      }
    }

    /** The click handler: applies the flip of the stored preference. */
    method Click()
      modifies this
      ensures store == Clicked(old(store))
      ensures look == LookOf(Flipped(SavedTheme(old(store))))
      ensures Normalised(old(store)) ==> look != LookOf(old(store)[ThemeKey])
    {
      var currentTheme := ReadTheme();
      ApplyTheme(if currentTheme == "dark" then "light" else "dark");
    }
  }
}
