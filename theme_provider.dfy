/** The theme provider: the theme setting taken from its settings hook, its
    resolution to light or dark using the system preference, and the class
    it puts on the document root. */
module ThemeProvider {
  import opened Wrappers
  import opened Types
  import opened Dom
  import opened UseSettings

  /** `getSystemTheme`: light without a browser window, otherwise what the
      colour-scheme preference says. */
  function GetSystemTheme(hasWindow: bool, prefersDark: bool): (t: Theme)
    ensures t != System
    ensures t == Dark <==> hasWindow && prefersDark
  {
    if !hasWindow then Light else if prefersDark then Dark else Light
  }

  /** The theme setting: the record's theme, or "system" without a record. */
  function EffectiveTheme(settings: Option<AppSettings>): (t: Theme)
    ensures settings.Some? ==> t == settings.value.theme
    ensures settings.None? ==> t == System
  {
    if settings.Some? then settings.value.theme else System
  }

  /** The theme in use: the system's for "system", the setting otherwise;
      never "system" itself when the system theme is light or dark. */
  function ActualTheme(theme: Theme, systemTheme: Theme): (t: Theme)
    requires systemTheme != System
    ensures t != System
    ensures theme != System ==> t == theme
    ensures theme == System ==> t == systemTheme
  {
    if theme == System then systemTheme else theme
  }

  /** The root's classes after the effect: light and dark removed, then the
      theme in use added. */
  function RootClasses(classes: set<string>, actual: Theme): (r: set<string>)
    requires actual != System
    ensures actual.Name() in r
    ensures (if actual == Light then "dark" else "light") !in r
    ensures r - {"light", "dark"} == classes - {"light", "dark"}
  {
    classes - {"light", "dark"} + {actual.Name()}
  }

  /** Exactly one of the two scheme classes is on the root after the
      effect, whatever was there before. */
  lemma ExactlyOneScheme(classes: set<string>, actual: Theme)
    requires actual != System
    ensures ("light" in RootClasses(classes, actual)) != ("dark" in RootClasses(classes, actual))
  {
  }

  /** Re-running the effect with the same theme changes nothing. */
  lemma RootClassesIdempotent(classes: set<string>, actual: Theme)
    requires actual != System
    ensures RootClasses(RootClasses(classes, actual), actual) == RootClasses(classes, actual)
  {
  }

  class Provider {
    const hook: SettingsHook
    var systemTheme: Theme
    const root: RootElement

    constructor (hook: SettingsHook, root: RootElement)
      ensures this.hook == hook && this.root == root && systemTheme == Light
    {
      this.hook := hook;
      this.root := root;
      systemTheme := Light;
    }

    predicate Valid()
      reads this
    {
      systemTheme != System
    }

    /** `theme` */
    function Theme(): (t: Types.Theme)
      reads this, hook
      ensures t == EffectiveTheme(hook.settings)
    {
      EffectiveTheme(hook.settings)
    }

    /** `actualTheme` */
    function Actual(): (t: Types.Theme)
      requires Valid()
      reads this, hook
      ensures t != System
    {
      ActualTheme(Theme(), systemTheme)
    }

    /** The system-theme effect: without a window nothing happens;
      otherwise the system theme is read again. */
    method SyncSystemTheme(hasWindow: bool, prefersDark: bool)
      modifies this
      ensures old(Valid()) ==> Valid()
      ensures hasWindow ==> systemTheme == GetSystemTheme(hasWindow, prefersDark)
      ensures !hasWindow ==> systemTheme == old(systemTheme)
    {
      if !hasWindow {
        return;
      }
      systemTheme := GetSystemTheme(hasWindow, prefersDark);
    }

    /** The class effect on the document root. */
    method ApplyToRoot()
      requires Valid()
      modifies root
      ensures root.classList == RootClasses(old(root.classList), Actual())
    {
      root.Remove("light");
      root.Remove("dark");
      root.Add(Actual().Name());
    }

    /** `setTheme`: handed to the hook's `updateTheme`. */
    method SetTheme(newTheme: Types.Theme, reply: Result<()>) returns (r: Result<()>)
      modifies hook, hook.channel
      ensures hook.loading == old(hook.loading) && hook.channel.restarts == old(hook.channel.restarts)
      ensures old(hook.settings).None? ==> r.Ok? && hook.settings.None? && hook.channel.saved == old(hook.channel.saved)
      ensures old(hook.settings).Some? ==> r == reply
      ensures old(hook.settings).Some? && reply.Ok? ==>
                hook.settings == Some(old(hook.settings).value.(theme := newTheme))
                && hook.channel.saved == old(hook.channel.saved) + [old(hook.settings).value.(theme := newTheme)]
      ensures old(hook.settings).Some? && reply.Err? ==>
                hook.settings == old(hook.settings) && hook.channel.saved == old(hook.channel.saved)
    {
      r := hook.UpdateTheme(newTheme, reply);
    }
  }

  /** `useTheme`: the surrounding provider, or the error raised outside one. */
  function UseTheme(context: Option<Provider>): (r: Result<Provider>)
    ensures context.Some? <==> r.Ok?
    ensures r.Ok? ==> r.value == context.value
    ensures r.Err? ==> r.error == "useTheme must be used within a ThemeProvider"
  {
    match context
    case Some(p) => Ok(p)
    case None => Err("useTheme must be used within a ThemeProvider")
  }
}
