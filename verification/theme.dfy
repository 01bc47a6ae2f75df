/**
 * The theme provider: the current theme, the stored preference under the
 * storage key "theme", and the `data-theme` attribute of the document root.
 * Until its mount effect has run the theme is unset and nothing is rendered.
 */
module Theme {
  import opened Wrappers

  datatype Theme = Light | Dark

  const StorageKey := "theme"

  function Name(t: Theme): string {
    match t
    case Light => "light"
    case Dark => "dark"
  }

  /** The theme `toggleTheme` switches to. */
  function Flip(t: Theme): (r: Theme)
    ensures r != t
  {
    match t
    case Light => Dark
    case Dark => Light
  }

  /** The theme read from a stored value: light only for exactly "light", dark otherwise. */
  function FromStored(stored: Option<string>): (t: Theme)
    ensures t == Light <==> stored == Some("light")
  {
    if stored == Some(Name(Light)) then Light else Dark
  }

  class ThemeProvider {
    var theme: Option<Theme>
    var storage: map<string, string>
    var dataTheme: Option<string>

    /** The provider renders its children only once the theme is set. */
    predicate Renders()
      reads this
    {
      theme.Some?
    }

    /** The `data-theme` attribute shows the current theme. */
    predicate AttributeInSync()
      reads this
    {
      theme.Some? ==> dataTheme == Some(Name(theme.value))
    }

    /** The first render, before the mount effect: no theme, so nothing is rendered. */
    constructor (initialStorage: map<string, string>, initialAttribute: Option<string>)
      ensures theme == None && !Renders()
      ensures storage == initialStorage && dataTheme == initialAttribute
    {
      theme := None;
      storage := initialStorage;
      dataTheme := initialAttribute;
    }

    /** The mount effect: choose the theme from storage, set the attribute, store a choice only where none was stored. */
    method Initialize()
      modifies this
      ensures var stored := if StorageKey in old(storage) then Some(old(storage)[StorageKey]) else None;
        && theme == Some(FromStored(stored))
        && (stored == None || stored == Some("") ==> storage == old(storage)[StorageKey := Name(theme.value)])
        && (stored != None && stored != Some("") ==> storage == old(storage))
      ensures dataTheme == Some(Name(theme.value))
      ensures Renders() && AttributeInSync()
    {
      var stored := if StorageKey in storage then Some(storage[StorageKey]) else None;
      var saved := FromStored(stored);
      if saved == Dark {
        dataTheme := Some(Name(Dark));
      } else {
        dataTheme := Some(Name(Light));
      }
      if stored == None || stored == Some("") {
        storage := storage[StorageKey := Name(saved)];
      }
      theme := Some(saved);
    }

    /** `toggleTheme()`: flips the theme and writes the new one to the attribute and to storage; fails while unset. */
    method ToggleTheme() returns (r: Result<(), string>)
      modifies this
      ensures old(theme).None? ==>
        && r == Err("Theme is not found")
        && theme == old(theme) && storage == old(storage) && dataTheme == old(dataTheme)
      ensures old(theme).Some? ==>
        && r.Ok? && theme == Some(Flip(old(theme).value))
        && storage == old(storage)[StorageKey := Name(theme.value)]
        && dataTheme == Some(Name(theme.value))
      ensures old(theme).Some? ==> AttributeInSync()
    {
      if theme.None? {
        return Err("Theme is not found");
      }
      var current := theme.value;
      theme := Some(Flip(current));
      if current == Dark {
        dataTheme := Some(Name(Light));
        storage := storage[StorageKey := Name(Light)];
      } else {
        dataTheme := Some(Name(Dark));
        storage := storage[StorageKey := Name(Dark)];
      }
      r := Ok(());
    }
  }

  /** Two toggles restore the original theme, and leave storage and attribute showing it. */
  method ToggleTwice(p: ThemeProvider) returns (r1: Result<(), string>, r2: Result<(), string>)
    requires p.theme.Some?
    modifies p
    ensures r1.Ok? && r2.Ok? && p.theme == old(p.theme)
    ensures StorageKey in p.storage && p.storage[StorageKey] == Name(p.theme.value) && p.AttributeInSync()
  {
    r1 := p.ToggleTheme();
    r2 := p.ToggleTheme();
  }
}
