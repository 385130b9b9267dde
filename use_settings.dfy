/** The settings hook of the theme stack: a settings record with a nullable
    database path, loaded from the back end with a fallback, and saved back
    whole on every change. Each use of the hook holds its own copy of the
    record; all copies talk to the same back end. */
module UseSettings {
  import opened Wrappers
  import opened Types

  /** The back end as this hook sees it: every record it accepted, in
      order (the last one is what is stored), and how many restarts it was
      asked for. */
  class SettingsChannel {
    var saved: seq<AppSettings>
    var restarts: nat

    constructor ()
      ensures saved == [] && restarts == 0
    {
      saved := [];
      restarts := 0;
    }
  }

  /** The record used when loading fails: version 1, the default database
      location, the system theme. */
  function FallbackSettings(): (s: AppSettings)
    ensures s.version == 1 && s.dbPath.None? && s.theme == System
  {
    AppSettings(1, None, System)
  }

  /** `selectDatabasePath`: the path chosen in the save dialog, or none
      when the dialog was dismissed or failed. */
  function SelectDatabasePath(reply: Result<Option<string>>): (p: Option<string>)
    ensures reply.Err? ==> p.None?
    ensures reply.Ok? ==> p == reply.value
  {
    if reply.Ok? then reply.value else None
  }

  /** `getDefaultDatabasePath`: the back end's default location, or none
      when the call fails. */
  function GetDefaultDatabasePath(reply: Result<string>): (p: Option<string>)
    ensures reply.Err? <==> p.None?
    ensures reply.Ok? ==> p == Some(reply.value)
  {
    if reply.Ok? then Some(reply.value) else None
  }

  class SettingsHook {
    var settings: Option<AppSettings>
    var loading: bool
    const channel: SettingsChannel

    constructor (channel: SettingsChannel)
      ensures this.channel == channel && settings.None? && loading
    {
      this.channel := channel;
      settings := None;
      loading := true;
    }

    /** `loadSettings`: the loaded record, or the fallback when loading
      fails; loading is over either way. */
    method LoadSettings(reply: Result<AppSettings>)
      modifies this
      ensures !loading
      ensures reply.Ok? ==> settings == Some(reply.value)
      ensures reply.Err? ==> settings == Some(FallbackSettings())
    {
      loading := true;
      match reply {
        case Ok(loaded) => settings := Some(loaded);
        case Err(_) => settings := Some(FallbackSettings());
      }
      loading := false;
    }

    /** `saveSettings`: the record is kept only once the back end accepted
      it; a refusal is passed on and changes nothing. */
    method SaveSettings(newSettings: AppSettings, reply: Result<()>) returns (r: Result<()>)
      modifies this, channel
      ensures r == reply && loading == old(loading) && channel.restarts == old(channel.restarts)
      ensures reply.Ok? ==> settings == Some(newSettings) && channel.saved == old(channel.saved) + [newSettings]
      ensures reply.Err? ==> settings == old(settings) && channel.saved == old(channel.saved)
    {
      if reply.Err? {
        return reply;
      }
      channel.saved := channel.saved + [newSettings];
      settings := Some(newSettings);
      return reply;
    }

    /** `updateTheme`: nothing without a record; otherwise the record with
      only its theme changed is saved. */
    method UpdateTheme(theme: Theme, reply: Result<()>) returns (r: Result<()>)
      modifies this, channel
      ensures loading == old(loading) && channel.restarts == old(channel.restarts)
      ensures old(settings).None? ==> r.Ok? && settings.None? && channel.saved == old(channel.saved)
      ensures old(settings).Some? ==> r == reply
      ensures old(settings).Some? && reply.Ok? ==>
                settings == Some(old(settings).value.(theme := theme))
                && channel.saved == old(channel.saved) + [old(settings).value.(theme := theme)]
      ensures old(settings).Some? && reply.Err? ==> settings == old(settings) && channel.saved == old(channel.saved)
    {
      if settings.None? {
        return Ok(());
      }
      r := SaveSettings(settings.value.(theme := theme), reply);
    }

    /** `updateDatabasePath`: nothing without a record; otherwise the record
      with only its database path changed is saved. */
    method UpdateDatabasePath(dbPath: Option<string>, reply: Result<()>) returns (r: Result<()>)
      modifies this, channel
      ensures loading == old(loading) && channel.restarts == old(channel.restarts)
      ensures old(settings).None? ==> r.Ok? && settings.None? && channel.saved == old(channel.saved)
      ensures old(settings).Some? ==> r == reply
      ensures old(settings).Some? && reply.Ok? ==>
                settings == Some(old(settings).value.(dbPath := dbPath))
                && channel.saved == old(channel.saved) + [old(settings).value.(dbPath := dbPath)]
      ensures old(settings).Some? && reply.Err? ==> settings == old(settings) && channel.saved == old(channel.saved)
    {
      if settings.None? {
        return Ok(());
      }
      r := SaveSettings(settings.value.(dbPath := dbPath), reply);
    }

    /** `useDefaultDatabasePath`: clearing the path means "use the default
      location". */
    method UseDefaultDatabasePath(reply: Result<()>) returns (r: Result<()>)
      modifies this, channel
      ensures loading == old(loading) && channel.restarts == old(channel.restarts)
      ensures old(settings).None? ==> r.Ok? && settings.None? && channel.saved == old(channel.saved)
      ensures old(settings).Some? ==> r == reply
      ensures old(settings).Some? && reply.Ok? ==>
                settings == Some(old(settings).value.(dbPath := None))
                && channel.saved == old(channel.saved) + [old(settings).value.(dbPath := None)]
      ensures old(settings).Some? && reply.Err? ==> settings == old(settings) && channel.saved == old(channel.saved)
    {
      r := UpdateDatabasePath(None, reply);
    }

    /** `restartApp`: asks the back end for a restart; a refusal is passed on. */
    method RestartApp(reply: Result<()>) returns (r: Result<()>)
      modifies channel
      ensures r == reply && channel.saved == old(channel.saved)
      ensures channel.restarts == old(channel.restarts) + (if reply.Ok? then 1 else 0)
    {
      if reply.Ok? {
        channel.restarts := channel.restarts + 1;
      }
      return reply;
    }
  }
}
