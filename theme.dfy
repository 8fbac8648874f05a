/** The light/dark theme switch shared by the home page and the race detail
    pages: the `data-theme` attribute of the document element, the `theme`
    entry of local storage and the text of the `theme-toggle` button. */
module Theme {
  import opened Wrappers

  const Light := "light"
  const Dark := "dark"

  /** Button texts; each names the theme a click switches to. */
  const ToLightLabel := "💡 Light Mode"
  const ToDarkLabel := "🌙 Dark Mode"

  /** The theme applied on load: the stored value unless it is absent or
      empty (JavaScript `||`), else the system colour-scheme preference. */
  function InitialTheme(stored: Option<string>, prefersLight: bool): (t: string)
    ensures stored.Some? && stored.value != "" ==> t == stored.value
    ensures stored.None? || stored.value == "" ==> t == (if prefersLight then Light else Dark)
    ensures t != ""
  {
    if stored.Some? && stored.value != "" then stored.value
    else if prefersLight then Light
    else Dark
  }

  /** The theme a click switches to; anything but `dark` counts as light. */
  function Flip(current: string): (t: string)
    ensures t == Light || t == Dark
    ensures t == Light <==> current == Dark
  {
    if current == Dark then Light else Dark
  }

  /** The button text shown while `theme` is applied. */
  function LabelFor(theme: string): (text: string)
    ensures text == ToLightLabel <==> theme == Dark
    ensures text == ToDarkLabel <==> theme != Dark
  {
    if theme == Dark then ToLightLabel else ToDarkLabel
  }

  /** The button announcing a switch to `target`. */
  function ModeLabel(target: string): string
  {
    if target == Light then ToLightLabel else ToDarkLabel
  }

  /** The button always names the theme the next click applies. */
  lemma {:induction false} LabelNamesNextTheme(theme: string)
    ensures LabelFor(theme) == ModeLabel(Flip(theme))
  {
    if theme == Dark {
      assert Flip(theme) == Light;
    } else {
      assert Flip(theme) == Dark;
    }
  }

  /** Two clicks restore a light or dark theme. */
  lemma {:induction false} FlipTwice(theme: string)
    requires theme == Light || theme == Dark
    ensures Flip(Flip(theme)) == theme
  {
  }

  /** After one click any other attribute value is normalised: the second
      click lands on `light`. */
  lemma {:induction false} FlipTwiceOther(theme: string)
    requires theme != Light && theme != Dark
    ensures Flip(theme) == Dark && Flip(Flip(theme)) == Light
  {
  }

  /** What a click persists is what the next page load applies, whatever the
      system preference. */
  lemma {:induction false} ReloadKeepsTheme(current: string, prefersLight: bool)
    ensures InitialTheme(Some(Flip(current)), prefersLight) == Flip(current)
  {
  }

  class ThemeToggle {
    /** `document.documentElement`'s `data-theme` attribute. */
    var dataTheme: string
    /** `localStorage.getItem('theme')`. */
    var stored: Option<string>
    /** The `theme-toggle` button's text. */
    var buttonText: string

    /** The attribute, the storage entry and the button agree. */
    predicate Synced()
      reads this
    {
      stored == Some(dataTheme) && buttonText == LabelFor(dataTheme)
    }

    /** Page load: applies the initial theme and labels the button; storage is
        read, not written. */
    constructor (stored: Option<string>, prefersLight: bool)
      ensures this.stored == stored
      ensures dataTheme == InitialTheme(stored, prefersLight)
      ensures buttonText == LabelFor(dataTheme)
    {
      this.stored := stored;
      var theme := InitialTheme(stored, prefersLight);
      dataTheme := theme;
      buttonText := LabelFor(theme);
    }

    /** The click handler: flips the attribute it reads, persists the new
        value and relabels the button. */
    method Click()
      modifies this
      ensures dataTheme == Flip(old(dataTheme))
      ensures Synced()
    {
      var current := dataTheme;
      var theme := Flip(current);
      dataTheme := theme;
      stored := Some(theme);
      buttonText := LabelFor(theme);
    }
  }

  /** Loading a page and clicking the toggle twice: a light or dark theme comes
      back, and is then also the persisted one. */
  method DoubleClick(stored: Option<string>, prefersLight: bool)
    returns (initial: string, final: string, persisted: Option<string>)
    ensures initial == InitialTheme(stored, prefersLight)
    ensures initial == Light || initial == Dark ==> final == initial && persisted == Some(initial)
    ensures final == Light || final == Dark
  {
    var toggle := new ThemeToggle(stored, prefersLight);
    initial := toggle.dataTheme;
    toggle.Click();
    toggle.Click();
    if initial == Light || initial == Dark {
      FlipTwice(initial);
    }
    final, persisted := toggle.dataTheme, toggle.stored;
  }
}
