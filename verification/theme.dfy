/**
 * The light/dark theme switch of `assets/js/theme.js`.
 *
 * The page is a `Page` object: the stored setting, the attributes on the
 * root element, the media of the two highlight stylesheets, the search
 * widget, the tables' `table-dark` flags and the toggle button. Widgets that
 * are re-rendered through third-party libraries are not part of the page
 * model; of Mermaid only the theme name it receives is kept.
 */
module Theme {
  import opened Common

  const Light := "light"
  const Dark := "dark"

  /** `determineThemeSetting`: anything but "dark" or "light", absence included, reads as "light". */
  function Normalize(stored: Option<string>): (r: string)
    ensures r == Light || r == Dark
    ensures r == Dark <==> stored == Some(Dark)
  {
    if stored == Some(Dark) || stored == Some(Light) then stored.value else Light
  }

  /** The setting `toggleThemeSetting` chooses: "dark" from "light", "light" from anything else. */
  function Toggled(setting: string): (r: string)
    ensures r == Light || r == Dark
    ensures setting == Light <==> r == Dark
  {
    if setting == Light then Dark else Light
  }

  /** Toggling twice restores a normalised setting. */
  lemma ToggleTwice(stored: Option<string>)
    ensures Toggled(Toggled(Normalize(stored))) == Normalize(stored)
  {
  }

  /** `setMermaidTheme`: Mermaid calls the light theme "default". */
  function MermaidThemeName(theme: string): (r: string)
    ensures theme == Light ==> r == "default"
    ensures theme != Light ==> r == theme
  {
    if theme == Light then "default" else theme
  }

  /** The accessible attributes of the toggle button. */
  datatype ToggleButton = ToggleButton(ariaLabel: string, ariaPressed: string, title: string)

  /** The button names the theme a click switches to and is pressed in dark mode. */
  function ToggleButtonFor(current: string): (b: ToggleButton)
    ensures b.ariaPressed == (if current == Dark then "true" else "false")
    ensures b.ariaLabel == "Switch to " + Toggled(current) + " theme"
    ensures b.title == "Switch to " + Toggled(current) + " theme (current: " + current + ")"
  {
    var next := if current == Light then Dark else Light;
    ToggleButton("Switch to " + next + " theme",
                 if current == Dark then "true" else "false",
                 "Switch to " + next + " theme (current: " + current + ")")
  }

  /** Highlight stylesheet media: "" is active, "none" disables it. */
  const Active := ""
  const Disabled := "none"

  class Page {
    var storedTheme: Option<string>       // localStorage "theme"
    var themeSetting: Option<string>      // data-theme-setting on the root element
    var theme: Option<string>             // data-theme on the root element
    var transitioning: bool               // theme-transitioning class on the root element
    var highlightLightMedia: string       // media of #highlight_theme_light
    var highlightDarkMedia: string        // media of #highlight_theme_dark
    var searchDark: Option<bool>          // the ninja-keys element and its "dark" class, when present
    const mermaidLoaded: bool             // whether the mermaid library is on the page
    var mermaidTheme: Option<string>      // theme last given to mermaid.initialize
    var toggle: Option<ToggleButton>      // #light-toggle, when present
    const tables: array<bool>             // the "table-dark" class of each table

    constructor (storedTheme: Option<string>, tableCount: nat, hasSearch: bool,
                 mermaidLoaded: bool, hasToggle: bool)
      ensures this.storedTheme == storedTheme && this.mermaidLoaded == mermaidLoaded
      ensures themeSetting.None? && theme.None? && !transitioning && mermaidTheme.None?
      ensures searchDark == (if hasSearch then Some(false) else None)
      ensures toggle.Some? <==> hasToggle
      ensures fresh(tables) && tables.Length == tableCount
      ensures forall i :: 0 <= i < tables.Length ==> !tables[i]
    {
      this.storedTheme := storedTheme;
      themeSetting, theme, transitioning := None, None, false;
      highlightLightMedia, highlightDarkMedia := Active, Active;
      searchDark := if hasSearch then Some(false) else None;
      this.mermaidLoaded := mermaidLoaded;
      mermaidTheme := None;
      toggle := if hasToggle then Some(ToggleButton("", "", "")) else None;
      tables := new bool[tableCount](_ => false);
    }

    /** `determineThemeSetting` and `determineComputedTheme`, which agree. */
    function ThemeSetting(): (r: string)
      reads this
      ensures r == Light || r == Dark
    {
      Normalize(storedTheme)
    }

    /** Exactly one highlight stylesheet is active, the one of `theme`. */
    method SetHighlight(theme: string)
      modifies this
      ensures highlightDarkMedia == (if theme == Dark then Active else Disabled)
      ensures highlightLightMedia == (if theme == Dark then Disabled else Active)
      ensures storedTheme == old(storedTheme) && themeSetting == old(themeSetting)
      ensures this.theme == old(this.theme) && searchDark == old(searchDark)
      ensures transitioning == old(transitioning) && toggle == old(toggle)
      ensures mermaidTheme == old(mermaidTheme)
    {
      if theme == Dark {
        highlightLightMedia := Disabled;
        highlightDarkMedia := Active;
      } else {
        highlightDarkMedia := Disabled;
        highlightLightMedia := Active;
      }
    }

    /** The search widget has class "dark" iff the theme is dark; without the widget nothing changes. */
    method SetSearchTheme(theme: string)
      modifies this
      ensures old(searchDark).None? ==> searchDark.None?
      ensures old(searchDark).Some? ==> searchDark == Some(theme == Dark)
      ensures storedTheme == old(storedTheme) && themeSetting == old(themeSetting)
      ensures this.theme == old(this.theme) && transitioning == old(transitioning)
      ensures highlightLightMedia == old(highlightLightMedia)
      ensures highlightDarkMedia == old(highlightDarkMedia)
      ensures toggle == old(toggle) && mermaidTheme == old(mermaidTheme)
    {
      if searchDark.None? {
        return;
      }
      if theme == Dark {
        searchDark := Some(true);
      } else {
        searchDark := Some(false);
      }
    }

    /**
     * The page as `applyTheme` leaves it for theme `t`: `data-theme`, the
     * transition class, both highlight stylesheets, the search widget (when
     * there was one), Mermaid (when loaded) and every table follow `t`.
     */
    predicate Follows(t: string, searchBefore: Option<bool>, mermaidBefore: Option<string>)
      reads this, tables
    {
      && theme == Some(t)
      && transitioning
      && highlightDarkMedia == (if t == Dark then Active else Disabled)
      && highlightLightMedia == (if t == Dark then Disabled else Active)
      && searchDark == (if searchBefore.Some? then Some(t == Dark) else None)
      && mermaidTheme == (if mermaidLoaded then Some(MermaidThemeName(t)) else mermaidBefore)
      && (forall i :: 0 <= i < tables.Length ==> tables[i] == (t == Dark))
    }

    /** `applyTheme`: every part of the page follows the computed theme. */
    method ApplyTheme()
      modifies this, tables
      ensures Follows(Normalize(storedTheme), old(searchDark), old(mermaidTheme))
      ensures storedTheme == old(storedTheme) && themeSetting == old(themeSetting)
      ensures toggle == old(toggle)
    {
      var t := ThemeSetting();
      transitioning := true;   // removed again by a timer after 300 ms
      SetHighlight(t);
      SetSearchTheme(t);
      if mermaidLoaded {
        mermaidTheme := Some(MermaidThemeName(t));
      }
      theme := Some(t);
      var i := 0;
      while i < tables.Length
        invariant 0 <= i <= tables.Length
        invariant forall j :: 0 <= j < i ==> tables[j] == (t == Dark)
        modifies tables
      {
        if t == Dark {
          tables[i] := true;    // classList.add("table-dark")
        } else {
          tables[i] := false;   // classList.remove("table-dark")
        }
        i := i + 1;
      }
    }

    /** `setThemeSetting`: store the setting as given, then apply the normalised theme. */
    method SetThemeSetting(setting: string)
      modifies this, tables
      ensures storedTheme == Some(setting) && themeSetting == Some(setting)
      ensures Follows(Normalize(Some(setting)), old(searchDark), old(mermaidTheme))
      ensures toggle == old(toggle)
    {
      storedTheme := Some(setting);
      themeSetting := Some(setting);
      ApplyTheme();
    }

    /** `toggleThemeSetting`: "dark" from "light", "light" from anything else, then apply it. */
    method ToggleThemeSetting()
      modifies this, tables
      ensures storedTheme == Some(Toggled(Normalize(old(storedTheme))))
      ensures themeSetting == storedTheme
      ensures Follows(Toggled(Normalize(old(storedTheme))), old(searchDark), old(mermaidTheme))
      ensures toggle == old(toggle)
    {
      var current := ThemeSetting();
      if current == Light {
        SetThemeSetting(Dark);
      } else {
        SetThemeSetting(Light);
      }
    }

    /** `updateThemeToggleAccessibility`: only the button changes, and nothing without it. */
    method UpdateThemeToggleAccessibility()
      modifies this
      ensures old(toggle).None? ==> toggle.None?
      ensures old(toggle).Some? ==> toggle == Some(ToggleButtonFor(Normalize(storedTheme)))
      ensures storedTheme == old(storedTheme) && theme == old(theme)
      ensures themeSetting == old(themeSetting) && transitioning == old(transitioning)
      ensures highlightLightMedia == old(highlightLightMedia)
      ensures highlightDarkMedia == old(highlightDarkMedia)
      ensures searchDark == old(searchDark) && mermaidTheme == old(mermaidTheme)
    {
      if toggle.Some? {
        toggle := Some(ToggleButtonFor(ThemeSetting()));
      }
    }

    /** A click on the button: toggle, then refresh the button's attributes. */
    method Click()
      modifies this, tables
      ensures storedTheme == Some(Toggled(Normalize(old(storedTheme))))
      ensures themeSetting == storedTheme
      ensures Follows(Toggled(Normalize(old(storedTheme))), old(searchDark), old(mermaidTheme))
      ensures old(toggle).None? ==> toggle.None?
      ensures old(toggle).Some? ==> toggle == Some(ToggleButtonFor(Toggled(Normalize(old(storedTheme)))))
    {
      ToggleThemeSetting();
      UpdateThemeToggleAccessibility();
    }
  }

  /** Two clicks bring the stored setting back to its normalised start value. */
  method ClickTwice(p: Page)
    modifies p, p.tables
    ensures p.storedTheme == Some(Normalize(old(p.storedTheme)))
    ensures p.theme == p.storedTheme
  {
    p.Click();
    p.Click();
    ToggleTwice(old(p.storedTheme));
  }
}
