/** The preferences dialog of the theme stack: a theme choice applied
    through the theme provider and a database location applied through the
    dialog's own settings hook, with a restart prompt when the location
    moved. */
module PreferencesDialog {
  import opened Wrappers
  import opened Types
  import opened Dom
  import opened UseSettings
  import opened ThemeProvider

  /** A notification shown by the dialog. */
  datatype Toast = Toast(title: string, description: string, destructive: bool)

  function ThemeToast(t: Theme): Toast {
    Toast("Theme Updated", "Theme changed to " + t.Name() + ".", false)
  }

  const PathToast := Toast("Database Path Updated", "Database path has been updated.", false)
  const RestartToast := Toast("Restart Required", "Please restart the application manually to use the new database location.", true)
  const ApplyErrorToast := Toast("Error", "Failed to apply settings. Please try again.", true)

  /** The path to store: none ("use the default location") when the chosen
      path is the default one, the chosen path otherwise. */
  function NewDbPath(localDbPath: string, defaultDbPath: string): (p: Option<string>)
    ensures p.None? <==> localDbPath == defaultDbPath
    ensures p.Some? ==> p.value == localDbPath
  {
    if localDbPath == defaultDbPath then None else Some(localDbPath)
  }

  /** Where the back end puts the database for a stored path: the default
      location when none is stored. */
  function Location(dbPath: Option<string>, defaultDbPath: string): string {
    if dbPath.Some? then dbPath.value else defaultDbPath
  }

  /** Storing `NewDbPath` sends the database to exactly the location shown
      in the dialog, whether or not it is the default one. */
  lemma NewDbPathLocation(localDbPath: string, defaultDbPath: string)
    ensures Location(NewDbPath(localDbPath, defaultDbPath), defaultDbPath) == localDbPath
  {
  }

  /** Whether the path is written: always without a loaded record (the
      stored path is then undefined, never equal to anything), otherwise
      when the new path differs from the stored one. */
  function PathChanged(newDbPath: Option<string>, settings: Option<AppSettings>): (b: bool)
    ensures settings.None? ==> b
    ensures settings.Some? ==> (b <==> newDbPath != settings.value.dbPath)
  {
    settings.None? || newDbPath != settings.value.dbPath
  }

  /** Whether going back to the default location needs a restart: unless a
      loaded record already stores none. */
  function RestartForDefault(settings: Option<AppSettings>): (b: bool)
    ensures !b <==> settings.Some? && settings.value.dbPath.None?
  {
    settings.None? || settings.value.dbPath.Some?
  }

  /** The path shown when the dialog opens: the stored path when it is a
      non-empty string, else the default location when that is known, else
      what was shown before. */
  function OpeningPath(settings: Option<AppSettings>, defaultPath: Option<string>, shown: string): (p: string)
    ensures settings.Some? && Truthy(settings.value.dbPath) ==> p == settings.value.dbPath.value
    ensures !(settings.Some? && Truthy(settings.value.dbPath)) && Truthy(defaultPath) ==> p == defaultPath.value
    ensures !(settings.Some? && Truthy(settings.value.dbPath)) && !Truthy(defaultPath) ==> p == shown
  {
    if settings.Some? && Truthy(settings.value.dbPath) then settings.value.dbPath.value
    else if Truthy(defaultPath) then defaultPath.value
    else shown
  }

  /** Whether the theme save fails: only when it is due, a record is
      loaded (otherwise `updateTheme` does nothing) and the back end refuses. */
  function ThemeFails(record: Option<AppSettings>, due: bool, reply: Result<()>): bool {
    due && record.Some? && reply.Err?
  }

  /** The provider's record after the theme half of an apply. */
  function AfterTheme(record: Option<AppSettings>, due: bool, t: Theme, reply: Result<()>): (r: Option<AppSettings>)
    ensures r.Some? <==> record.Some?
    ensures r.Some? ==> r.value.dbPath == record.value.dbPath && r.value.version == record.value.version
    ensures r.Some? && due && reply.Ok? ==> r.value.theme == t
    ensures !due || reply.Err? ==> r == record
  {
    if due && record.Some? && reply.Ok? then Some(record.value.(theme := t)) else record
  }

  /** The records the theme half hands to the back end. */
  function ThemeWrites(record: Option<AppSettings>, due: bool, t: Theme, reply: Result<()>): (w: seq<AppSettings>)
    ensures |w| <= 1
    ensures |w| == 1 <==> due && record.Some? && reply.Ok?
    ensures |w| == 1 ==> Some(w[0]) == AfterTheme(record, due, t, reply)
  {
    if due && record.Some? && reply.Ok? then [record.value.(theme := t)] else []
  }

  /** The records the path half hands to the back end, reading `record`. */
  function PathWrites(record: Option<AppSettings>, newDbPath: Option<string>, reply: Result<()>): (w: seq<AppSettings>)
    ensures |w| <= 1
    ensures |w| == 1 <==> PathChanged(newDbPath, record) && record.Some? && reply.Ok?
    ensures |w| == 1 ==> w[0] == record.value.(dbPath := newDbPath)
  {
    if PathChanged(newDbPath, record) && record.Some? && reply.Ok? then [record.value.(dbPath := newDbPath)] else []
  }

  /** A hook's record after it handed `w` to the back end: the last record
      accepted, or the record it had when nothing was accepted. */
  function AfterWrites(record: Option<AppSettings>, w: seq<AppSettings>): (r: Option<AppSettings>)
    ensures w == [] ==> r == record
    ensures w != [] ==> r == Some(w[|w| - 1])
  {
    if w == [] then record else Some(w[|w| - 1])
  }

  class Dialog {
    /** The dialog's own settings hook. */
    const hook: SettingsHook
    /** The theme provider around the dialog, with its own settings hook. */
    const provider: Provider
    var localTheme: Theme
    var localDbPath: string
    var defaultDbPath: string
    var isApplying: bool
    var needsRestart: bool
    var open: bool
    var toasts: seq<Toast>

    constructor (hook: SettingsHook, provider: Provider)
      ensures this.hook == hook && this.provider == provider
      ensures localTheme == provider.Theme()
      ensures localDbPath == "" && defaultDbPath == ""
      ensures !isApplying && !needsRestart && !open && toasts == []
    {
      this.hook := hook;
      this.provider := provider;
      localTheme := provider.Theme();
      localDbPath := "";
      defaultDbPath := "";
      isApplying := false;
      needsRestart := false;
      open := false;
      toasts := [];
    }

    /** The opening effect; `defaultReply` and `pathReply` are the answers
      of the two default-location requests it makes. */
    method Open(defaultReply: Option<string>, pathReply: Option<string>)
      modifies this
      ensures open && !needsRestart
      ensures localTheme == provider.Theme()
      ensures defaultDbPath == (if Truthy(defaultReply) then defaultReply.value else old(defaultDbPath))
      ensures localDbPath == OpeningPath(hook.settings, pathReply, old(localDbPath))
      ensures isApplying == old(isApplying) && toasts == old(toasts)
    {
      open := true;
      localTheme := provider.Theme();
      if Truthy(defaultReply) {
        defaultDbPath := defaultReply.value;
      }
      if hook.settings.Some? && Truthy(hook.settings.value.dbPath) {
        localDbPath := hook.settings.value.dbPath.value;
      } else if Truthy(pathReply) {
        localDbPath := pathReply.value;
      }
      needsRestart := false;
    }

    /** The theme selector. */
    method SelectTheme(t: Theme)
      modifies this
      ensures localTheme == t
      ensures localDbPath == old(localDbPath) && defaultDbPath == old(defaultDbPath)
      ensures needsRestart == old(needsRestart) && open == old(open)
      ensures isApplying == old(isApplying) && toasts == old(toasts)
    {
      localTheme := t;
    }

    /** `handleBrowseDatabasePath`: a chosen non-empty path is shown and
      marks a restart as needed; a dismissed dialog changes nothing. */
    method HandleBrowseDatabasePath(selected: Option<string>)
      modifies this
      ensures Truthy(selected) ==> localDbPath == selected.value && needsRestart
      ensures !Truthy(selected) ==> localDbPath == old(localDbPath) && needsRestart == old(needsRestart)
      ensures localTheme == old(localTheme) && defaultDbPath == old(defaultDbPath) && open == old(open)
      ensures isApplying == old(isApplying) && toasts == old(toasts)
    {
      if Truthy(selected) {
        localDbPath := selected.value;
        needsRestart := true;
      }
    }

    /** `handleUseDefaultPath`: the default location is shown; a restart is
      needed unless the record already stores none. */
    method HandleUseDefaultPath(defaultPath: Option<string>)
      modifies this
      ensures Truthy(defaultPath) ==> localDbPath == defaultPath.value && needsRestart == RestartForDefault(hook.settings)
      ensures !Truthy(defaultPath) ==> localDbPath == old(localDbPath) && needsRestart == old(needsRestart)
      ensures localTheme == old(localTheme) && defaultDbPath == old(defaultDbPath) && open == old(open)
      ensures isApplying == old(isApplying) && toasts == old(toasts)
    {
      if Truthy(defaultPath) {
        localDbPath := defaultPath.value;
        needsRestart := RestartForDefault(hook.settings);
      }
    }

    /** `handleCancel`: the theme choice is dropped and the dialog closes;
      the path shown stays as it was. */
    method HandleCancel()
      modifies this
      ensures localTheme == provider.Theme() && !needsRestart && !open
      ensures localDbPath == old(localDbPath) && defaultDbPath == old(defaultDbPath)
      ensures isApplying == old(isApplying) && toasts == old(toasts)
    {
      localTheme := provider.Theme();
      needsRestart := false;
      open := false;
    }

    /** The theme half of `handleApply`: when the chosen theme differs
      from the provider's, it is saved through the provider and announced;
      a refusal is reported as a failure. */
    method ApplyTheme(themeReply: Result<()>) returns (failed: bool)
      modifies this, provider.hook, provider.hook.channel
      ensures
        var due := old(localTheme) != EffectiveTheme(old(provider.hook.settings));
        && failed == ThemeFails(old(provider.hook.settings), due, themeReply)
        && provider.hook.settings == AfterTheme(old(provider.hook.settings), due, old(localTheme), themeReply)
        && provider.hook.channel.saved == old(provider.hook.channel.saved) + ThemeWrites(old(provider.hook.settings), due, old(localTheme), themeReply)
        && toasts == old(toasts) + (if due && !failed then [ThemeToast(old(localTheme))] else [])
      ensures provider.hook.channel.restarts == old(provider.hook.channel.restarts)
      ensures provider.hook.loading == old(provider.hook.loading)
      ensures localTheme == old(localTheme) && localDbPath == old(localDbPath) && defaultDbPath == old(defaultDbPath)
      ensures needsRestart == old(needsRestart) && open == old(open) && isApplying == old(isApplying)
    {
      failed := false;
      if localTheme != provider.Theme() {
        var r := provider.SetTheme(localTheme, themeReply);
        if r.Err? {
          failed := true;
        } else {
          toasts := toasts + [ThemeToast(localTheme)];
        }
      }
    }

    /** The path half of `handleApply`: when the path to store differs
      from the dialog's record it is saved through the dialog's hook; then
      either the restart prompt (answered by `confirmed`) or a notice. */
    method ApplyPath(pathReply: Result<()>, confirmed: bool, restartReply: Result<()>) returns (failed: bool)
      modifies this, hook, hook.channel
      ensures
        var newDbPath := NewDbPath(old(localDbPath), old(defaultDbPath));
        var due := PathChanged(newDbPath, old(hook.settings));
        var restarting := due && !failed && old(needsRestart) && confirmed;
        && failed == (due && old(hook.settings).Some? && pathReply.Err?)
        && hook.channel.saved == old(hook.channel.saved) + PathWrites(old(hook.settings), newDbPath, pathReply)
        && hook.settings == AfterWrites(old(hook.settings), PathWrites(old(hook.settings), newDbPath, pathReply))
        && hook.channel.restarts == old(hook.channel.restarts) + (if restarting && restartReply.Ok? then 1 else 0)
        && toasts == old(toasts)
                     + (if due && !failed && !old(needsRestart) then [PathToast] else [])
                     + (if restarting && restartReply.Err? then [RestartToast] else [])
      ensures hook.loading == old(hook.loading)
      ensures localTheme == old(localTheme) && localDbPath == old(localDbPath) && defaultDbPath == old(defaultDbPath)
      ensures needsRestart == old(needsRestart) && open == old(open) && isApplying == old(isApplying)
    {
      failed := false;
      var newDbPath := NewDbPath(localDbPath, defaultDbPath);
      if PathChanged(newDbPath, hook.settings) {
        var r := hook.UpdateDatabasePath(newDbPath, pathReply);
        if r.Err? {
          failed := true;
        } else if needsRestart {
          if confirmed {
            var restarted := hook.RestartApp(restartReply);
            if restarted.Err? {
              toasts := toasts + [RestartToast];
            }
          }
        } else {
          toasts := toasts + [PathToast];
        }
      }
    }

    /** `handleApply`: the theme half, then (unless it failed) the path
      half; a failure keeps the dialog open with an error notice, success
      closes it. The path half reads the dialog's record, which has seen
      the theme save only when dialog and provider share one hook. */
    method HandleApply(themeReply: Result<()>, pathReply: Result<()>, confirmed: bool, restartReply: Result<()>)
      requires hook.channel == provider.hook.channel
      modifies this, hook, hook.channel, provider.hook
      ensures
        var due := old(localTheme) != EffectiveTheme(old(provider.hook.settings));
        var themeFailed := ThemeFails(old(provider.hook.settings), due, themeReply);
        var seen := if hook == provider.hook then AfterTheme(old(provider.hook.settings), due, old(localTheme), themeReply) else old(hook.settings);
        var newDbPath := NewDbPath(old(localDbPath), old(defaultDbPath));
        var pathFailed := !themeFailed && PathChanged(newDbPath, seen) && seen.Some? && pathReply.Err?;
        var pathWrites := if themeFailed then [] else PathWrites(seen, newDbPath, pathReply);
        && hook.channel.saved == old(hook.channel.saved)
                                 + ThemeWrites(old(provider.hook.settings), due, old(localTheme), themeReply)
                                 + pathWrites
        && hook.settings == AfterWrites(seen, pathWrites)
        && (hook != provider.hook ==>
              provider.hook.settings == AfterTheme(old(provider.hook.settings), due, old(localTheme), themeReply))
        && open == (if themeFailed || pathFailed then old(open) else false)
        && (themeFailed || pathFailed ==> |toasts| > 0 && toasts[|toasts| - 1] == ApplyErrorToast)
      ensures !isApplying && hook.loading == old(hook.loading) && provider.hook.loading == old(provider.hook.loading)
      ensures localTheme == old(localTheme) && localDbPath == old(localDbPath)
      ensures defaultDbPath == old(defaultDbPath) && needsRestart == old(needsRestart)
    {
      isApplying := true;
      var failed := ApplyTheme(themeReply);
      if !failed {
        failed := ApplyPath(pathReply, confirmed, restartReply);
      }
      if failed {
        toasts := toasts + [ApplyErrorToast];
      } else {
        open := false;
      }
      isApplying := false;
    }

    /** `handleApply` corrected: with the provider's hook as its own, the
      dialog reads the record once and saves the chosen theme and path
      together in one record. No save is based on a record older than
      another, so the outcome is the same whether a handler sees the
      current record or the one of the render it was created in. */
    method HandleApplyMerged(reply: Result<()>) returns (failed: bool)
      requires hook == provider.hook
      modifies this, hook, hook.channel
      ensures
        var snapshot := old(hook.settings);
        var newDbPath := NewDbPath(old(localDbPath), old(defaultDbPath));
        var due := snapshot.Some? && (old(localTheme) != snapshot.value.theme || PathChanged(newDbPath, snapshot));
        && failed == (due && reply.Err?)
        && (due && reply.Ok? ==>
              var merged := snapshot.value.(theme := old(localTheme), dbPath := newDbPath);
              hook.settings == Some(merged) && hook.channel.saved == old(hook.channel.saved) + [merged])
        && (!(due && reply.Ok?) ==> hook.settings == snapshot && hook.channel.saved == old(hook.channel.saved))
        && open == (if failed then old(open) else false)
        && toasts == old(toasts) + (if failed then [ApplyErrorToast] else [])
      ensures !failed && old(hook.settings).Some? ==> provider.Theme() == old(localTheme)
      ensures !isApplying && hook.loading == old(hook.loading) && hook.channel.restarts == old(hook.channel.restarts)
      ensures localTheme == old(localTheme) && localDbPath == old(localDbPath)
      ensures defaultDbPath == old(defaultDbPath) && needsRestart == old(needsRestart)
    {
      isApplying := true;
      failed := false;
      var snapshot := hook.settings;
      var newDbPath := NewDbPath(localDbPath, defaultDbPath);
      if snapshot.Some? && (localTheme != snapshot.value.theme || PathChanged(newDbPath, snapshot)) {
        var r := hook.SaveSettings(snapshot.value.(theme := localTheme, dbPath := newDbPath), reply);
        failed := r.Err?;
      }
      if failed {
        toasts := toasts + [ApplyErrorToast];
      } else {
        open := false;
      }
      isApplying := false;
    }
  }

  /** The dialog as written, where it and the theme provider each hold
      their own settings hook over one back end, both loaded with the
      default record. The user picks the dark theme and a new database
      file and applies: the provider stores the dark theme, then the dialog
      stores its own, older record with the new path, so the record left in
      the back end has lost the theme. */
  method LostThemeUpdate() returns (stored: AppSettings)
    ensures stored == AppSettings(1, Some("/data/refs.db"), System)
  {
    var channel := new SettingsChannel();
    var own := new SettingsHook(channel);
    own.LoadSettings(Ok(AppSettings(1, None, System)));
    var other := new SettingsHook(channel);
    other.LoadSettings(Ok(AppSettings(1, None, System)));
    var root := new RootElement({});
    var provider := new Provider(other, root);
    var dialog := new Dialog(own, provider);
    dialog.Open(Some("/home/refforge.db"), Some("/home/refforge.db"));
    dialog.SelectTheme(Dark);
    dialog.HandleBrowseDatabasePath(Some("/data/refs.db"));
    dialog.HandleApply(Ok(()), Ok(()), false, Ok(()));
    stored := channel.saved[|channel.saved| - 1];
  }

  /** The same session with the dialog reading and writing settings through
      the provider's hook, and each save reading the record the previous
      save produced: the record left in the back end carries both the theme
      and the path, and the provider shows the dark theme. Sharing the hook
      alone is not enough when the path save reads the record of the render
      before the theme save; `MergedApply` does not depend on that. */
  method SharedSettingsApply() returns (stored: AppSettings, theme: Theme)
    ensures stored == AppSettings(1, Some("/data/refs.db"), Dark)
    ensures theme == Dark
  {
    var channel := new SettingsChannel();
    var shared := new SettingsHook(channel);
    shared.LoadSettings(Ok(AppSettings(1, None, System)));
    var root := new RootElement({});
    var provider := new Provider(shared, root);
    var dialog := new Dialog(shared, provider);
    dialog.Open(Some("/home/refforge.db"), Some("/home/refforge.db"));
    dialog.SelectTheme(Dark);
    dialog.HandleBrowseDatabasePath(Some("/data/refs.db"));
    dialog.HandleApply(Ok(()), Ok(()), false, Ok(()));
    stored := channel.saved[|channel.saved| - 1];
    theme := provider.Theme();
  }

  /** The session of `LostThemeUpdate` with the corrected apply: one record
      carrying both the dark theme and the new path is stored, the provider
      shows the dark theme, and the dialog closes. */
  method MergedApply() returns (stored: AppSettings, theme: Theme, saves: nat, closed: bool)
    ensures stored == AppSettings(1, Some("/data/refs.db"), Dark)
    ensures theme == Dark && saves == 1 && closed
  {
    var channel := new SettingsChannel();
    var shared := new SettingsHook(channel);
    shared.LoadSettings(Ok(AppSettings(1, None, System)));
    var root := new RootElement({});
    var provider := new Provider(shared, root);
    var dialog := new Dialog(shared, provider);
    dialog.Open(Some("/home/refforge.db"), Some("/home/refforge.db"));
    dialog.SelectTheme(Dark);
    dialog.HandleBrowseDatabasePath(Some("/data/refs.db"));
    var failed := dialog.HandleApplyMerged(Ok(()));
    stored := channel.saved[|channel.saved| - 1];
    theme := provider.Theme();
    saves := |channel.saved|;
    closed := !dialog.open;
  }
}
