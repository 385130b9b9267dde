/** The front end's settings helpers: its copy of the defaults, the
    fallbacks of the settings and file-dialog calls, and the dark-mode
    switch on the root element. */
module SettingsClient {
  import opened Wrappers
  import opened SettingsBackend
  import opened Dom

  /** The front end's default settings record. */
  const ClientDefaults: StoredSettings := StoredSettings(1, "refforge.db", "system", None, true, 10)

  /** Both ends agree on the defaults, field for field. */
  lemma DefaultsAgree()
    ensures ClientDefaults == DefaultSettings()
  {
  }

  /** `getSettings`: the back end's record, or the defaults when the call
      fails. */
  function GetSettings(reply: Result<StoredSettings>): (s: StoredSettings)
    ensures reply.Ok? ==> s == reply.value
    ensures reply.Err? ==> s == DefaultSettings()
  {
    match reply
    case Ok(settings) => settings
    case Err(_) => ClientDefaults
  }

  /** `chooseDbFile`: the selected path, or none when nothing was selected
      or the dialog failed. */
  function ChooseDbFile(reply: Result<Option<string>>): (p: Option<string>)
    ensures reply.Err? ==> p.None?
    ensures reply.Ok? ==> p == reply.value
  {
    match reply
    case Ok(selected) => selected
    case Err(_) => None
  }

  /** Whether the dark class is wanted: the "dark" theme, or any theme
      other than "light" when the system prefers dark. */
  predicate WantsDark(theme: string, prefersDark: bool) {
    theme == "dark" || (theme != "light" && prefersDark)
  }

  /** The class list after `applyTheme`. */
  function ThemeClasses(classes: set<string>, theme: string, prefersDark: bool): (r: set<string>)
    ensures "dark" in r <==> theme == "dark" || (theme != "light" && prefersDark)
    ensures r - {"dark"} == classes - {"dark"}
  {
    if WantsDark(theme, prefersDark) then classes + {"dark"} else classes - {"dark"}
  }

  /** Applying a theme twice is applying it once; the last theme applied
      decides. */
  lemma ThemeClassesIdempotent(classes: set<string>, t1: string, t2: string, prefersDark: bool)
    ensures ThemeClasses(ThemeClasses(classes, t1, prefersDark), t2, prefersDark)
            == ThemeClasses(classes, t2, prefersDark)
  {
    var once := ThemeClasses(classes, t1, prefersDark);
    var a := ThemeClasses(once, t2, prefersDark);
    var b := ThemeClasses(classes, t2, prefersDark);
    assert a - {"dark"} == b - {"dark"};
    assert ("dark" in a) == ("dark" in b);
    forall c ensures c in a <==> c in b {
      if c != "dark" {
        assert c in a <==> c in a - {"dark"};
        assert c in b <==> c in b - {"dark"};
      }
    }
  }

  /** `applyTheme`, with the colour-scheme media query's answer as a
      parameter. */
  method ApplyTheme(root: RootElement, theme: string, prefersDark: bool)
    modifies root
    ensures root.classList == ThemeClasses(old(root.classList), theme, prefersDark)
  {
    if theme == "dark" {
      root.Add("dark");
    } else if theme == "light" {
      root.Remove("dark");
    } else {
      var isDark := prefersDark;
      if isDark {
        root.Add("dark");
      } else {
        root.Remove("dark");
      }
    }
  }
}
