/** The desktop back end's settings store: the stored settings record and its
    defaults, reading with version migration, writing, database validation
    and timestamped database backups. The file system and SQLite are an
    abstract `Disk` whose failures are fixed when the disk is created. */
module SettingsBackend {
  import opened Wrappers
  import opened Strings

  /** The stored settings record (`version` and `max_backups` are unsigned
      32-bit numbers in the back end). */
  datatype StoredSettings = StoredSettings(
    version: int,
    databasePath: string,
    theme: string,
    lastVerified: Option<string>,
    backupEnabled: bool,
    maxBackups: int)

  datatype ValidationResult = ValidationResult(valid: bool, message: string)

  datatype BackupResult = BackupResult(success: bool, backupPath: Option<string>, message: string)

  /** The defaults: version 1, "refforge.db", the system theme, never
      verified, backups on, at most 10 of them. */
  function DefaultSettings(): (s: StoredSettings)
    ensures s.version == 1 && s.databasePath == "refforge.db" && s.theme == "system"
    ensures s.lastVerified.None? && s.backupEnabled && s.maxBackups == 10
  {
    StoredSettings(1, "refforge.db", "system", None, true, 10)
  }

  // ------------------------------------------------------------------ paths

  const SettingsDir: string := "RefForge"
  const SettingsPath: string := "RefForge/settings.json"
  const BackupDir: string := "RefForge/backups"

  /** What a settings file holds: text that cannot be read, text that is
      not a settings record, or a serialised record. */
  datatype SettingsText =
    | Unreadable(error: string)
    | Malformed(error: string)
    | Serialized(settings: StoredSettings)

  /** Records older than version 1 are raised to version 1; nothing else
      changes. */
  function Migrate(s: StoredSettings): (m: StoredSettings)
    ensures m.version >= 1
    ensures s.version >= 1 ==> m == s
    ensures s.version < 1 ==> m == s.(version := 1)
  {
    if s.version < 1 then s.(version := 1) else s
  }

  /** The result of reading a settings file: a missing file gives the
      defaults, a file that cannot be read or parsed gives its error, and a
      record is migrated. */
  function ParseSettings(text: Option<SettingsText>): (r: Result<StoredSettings>)
    ensures text.None? ==> r == Ok(DefaultSettings())
    ensures r.Ok? ==> r.value.version >= 1
    ensures r.Err? <==> text.Some? && !text.value.Serialized?
  {
    match text
    case None => Ok(DefaultSettings())
    case Some(Unreadable(e)) => Err(e)
    case Some(Malformed(e)) => Err(e)
    case Some(Serialized(s)) => Ok(Migrate(s))
  }

  /** Writing a record of version 1 or later and reading it back gives the
      same record. */
  lemma SettingsRoundTrip(s: StoredSettings)
    requires s.version >= 1
    ensures ParseSettings(Some(Serialized(s))) == Ok(s)
  {
  }

  /** Reading never yields a version below 1, and migration leaves every
      other field as stored. */
  lemma ReadKeepsFields(s: StoredSettings)
    ensures ParseSettings(Some(Serialized(s))).Ok?
    ensures ParseSettings(Some(Serialized(s))).value.version >= 1
    ensures ParseSettings(Some(Serialized(s))).value.(version := s.version) == s
  {
  }

  /** `Path::file_name`: the last component of a `/`-separated path, where
      empty and "." components are skipped; none when there is no component
      or the last one is "..". */
  function FileName(path: string): (r: Option<string>)
    ensures r.Some? ==> r.value != "" && r.value != "." && r.value != ".." && '/' !in r.value
  {
    var parts := NamedComponents(Split(path, '/'));
    if parts == [] || parts[|parts| - 1] == ".." then None else Some(parts[|parts| - 1])
  }

  function NamedComponents(parts: seq<string>): (r: seq<string>)
    requires forall k :: 0 <= k < |parts| ==> '/' !in parts[k]
    ensures forall k :: 0 <= k < |r| ==> r[k] != "" && r[k] != "." && '/' !in r[k]
    ensures |r| <= |parts|
  {
    if parts == [] then []
    else
      var rest := NamedComponents(parts[..|parts| - 1]);
      var last := parts[|parts| - 1];
      if last == "" || last == "." then rest else rest + [last]
  }

  /** The name of a database file in a directory is its file name. */
  lemma FileNameInDirectory(dir: string, name: string)
    requires '/' !in name && name != "" && name != "." && name != ".."
    ensures FileName(dir + "/" + name) == Some(name)
  {
    SplitAround(dir, '/', name);
    assert dir + "/" + name == dir + ['/'] + name;
    SplitWithoutSeparator(name, '/');
    var ps := Split(dir, '/') + [name];
    assert ps[..|ps| - 1] == Split(dir, '/');
  }

  /** A bare file name is its own file name. */
  lemma BareFileName(name: string)
    requires '/' !in name && name != "" && name != "." && name != ".."
    ensures FileName(name) == Some(name)
  {
    SplitWithoutSeparator(name, '/');
    assert [name][..0] == [];
  }

  /** "{file name, or "database"}_{timestamp}.bak" inside the backup
      directory. */
  function BackupPath(path: string, timestamp: string): (p: string)
    ensures |p| > |BackupDir| + 1 && p[..|BackupDir| + 1] == BackupDir + "/"
    ensures |p| >= 4 && p[|p| - 4..] == ".bak"
  {
    BackupDir + "/" + FileName(path).GetOr("database") + "_" + timestamp + ".bak"
  }

  /** A database file in a directory is backed up under its own name. */
  lemma BackupPathOfFile(dir: string, name: string, timestamp: string)
    requires '/' !in name && name != "" && name != "." && name != ".."
    ensures BackupPath(dir + "/" + name, timestamp) == "RefForge/backups/" + name + "_" + timestamp + ".bak"
  {
    FileNameInDirectory(dir, name);
  }

  /** A path without a file name is backed up as "database". */
  lemma BackupPathWithoutFileName(path: string, timestamp: string)
    requires FileName(path).None?
    ensures BackupPath(path, timestamp) == "RefForge/backups/database_" + timestamp + ".bak"
  {
  }

  // ------------------------------------------------------------------- disk

  /** The outcome of `backup_db` together with the paths that exist after it. */
  function Backup(path: string, timestamp: string, existing: set<string>,
                  createDirError: Option<string>, copyError: Option<string>)
    : (out: (Result<BackupResult>, set<string>))
  {
    if path == "" then
      (Ok(BackupResult(false, None, "Database path cannot be empty")), existing)
    else if path !in existing then
      (Ok(BackupResult(false, None, "Database file does not exist: " + path)), existing)
    else if BackupDir !in existing && createDirError.Some? then
      (Err(createDirError.value), existing)
    else
      var withDir := existing + {SettingsDir, BackupDir};
      match copyError
      case Some(e) =>
        (Ok(BackupResult(false, None, "Failed to backup database: " + e)),
         if BackupDir in existing then existing else withDir)
      case None =>
        (Ok(BackupResult(true, Some(BackupPath(path, timestamp)), "Database backed up successfully")),
         (if BackupDir in existing then existing else withDir) + {BackupPath(path, timestamp)})
  }

  /** A backup succeeds exactly when the path names an existing file, the
      backup directory is there or can be made, and the copy succeeds; a
      successful backup reports where the copy is and creates it; a failed
      one reports no path. No path ever stops existing. */
  lemma BackupOutcome(path: string, timestamp: string, existing: set<string>,
                      createDirError: Option<string>, copyError: Option<string>)
    ensures var (r, after) := Backup(path, timestamp, existing, createDirError, copyError);
            && existing <= after
            && (r.Ok? && r.value.success <==>
                  path != "" && path in existing
                  && (BackupDir in existing || createDirError.None?) && copyError.None?)
            && (r.Ok? && r.value.success ==>
                  r.value.backupPath == Some(BackupPath(path, timestamp)) && BackupPath(path, timestamp) in after)
            && (r.Ok? && !r.value.success ==> r.value.backupPath.None?)
            && (r.Err? ==> after == existing)
  {
  }

  /** An empty path or a missing file is reported, not raised, and nothing
      is created. */
  lemma BackupRefusesMissing(path: string, timestamp: string, existing: set<string>,
                             createDirError: Option<string>, copyError: Option<string>)
    requires path == "" || path !in existing
    ensures Backup(path, timestamp, existing, createDirError, copyError).0.Ok?
    ensures !Backup(path, timestamp, existing, createDirError, copyError).0.value.success
    ensures Backup(path, timestamp, existing, createDirError, copyError).1 == existing
    ensures path == "" ==> Contains(Backup(path, timestamp, existing, createDirError, copyError).0.value.message, "empty")
    ensures path != "" ==> Contains(Backup(path, timestamp, existing, createDirError, copyError).0.value.message, "does not exist")
  {
    if path == "" {
      assert "Database path cannot be empty" == "Database path cannot be " + "empty" + "";
    ContainsMiddle("Database path cannot be ", "empty", "");
    } else {
      assert "Database file does not exist: " + path == "Database file " + "does not exist" + (": " + path);
      ContainsMiddle("Database file ", "does not exist", ": " + path);
    }
  }

  /** The file system and the SQLite engine as the back end sees them: the
      paths that exist, the settings files and what they hold, and the
      failures each operation meets. */
  class Disk {
    var existing: set<string>
    var settingsFiles: map<string, SettingsText>
    /** What `create_dir_all` reports, if it fails. */
    const createDirError: Option<string>
    /** What writing the settings file reports, if it fails. */
    const writeError: Option<string>
    /** Why opening a database file fails, for the files that cannot be opened. */
    const openError: map<string, string>
    /** Why reading `user_version` fails, for the databases where it does. */
    const pragmaError: map<string, string>
    /** What copying a database file reports, if it fails. */
    const copyError: Option<string>

    constructor (existing: set<string>, settingsFiles: map<string, SettingsText>,
                 createDirError: Option<string>, writeError: Option<string>,
                 openError: map<string, string>, pragmaError: map<string, string>,
                 copyError: Option<string>)
      ensures this.existing == existing && this.settingsFiles == settingsFiles
      ensures this.createDirError == createDirError && this.writeError == writeError
      ensures this.openError == openError && this.pragmaError == pragmaError
      ensures this.copyError == copyError
    {
      this.existing := existing;
      this.settingsFiles := settingsFiles;
      this.createDirError := createDirError;
      this.writeError := writeError;
      this.openError := openError;
      this.pragmaError := pragmaError;
      this.copyError := copyError;
    }

    /** `get_settings_path`: the settings directory is created when missing. */
    method SettingsFilePath() returns (r: Result<string>)
      modifies this
      ensures settingsFiles == old(settingsFiles)
      ensures SettingsDir in old(existing) ==> r == Ok(SettingsPath) && existing == old(existing)
      ensures SettingsDir !in old(existing) && createDirError.Some? ==>
                r == Err(createDirError.value) && existing == old(existing)
      ensures SettingsDir !in old(existing) && createDirError.None? ==>
                r == Ok(SettingsPath) && existing == old(existing) + {SettingsDir}
    {
      if SettingsDir !in existing {
        if createDirError.Some? {
          return Err(createDirError.value);
        }
        existing := existing + {SettingsDir};
      }
      return Ok(SettingsPath);
    }

    /** `read_settings`: the given path, or the default one. */
    method ReadSettings(path: Option<string>) returns (r: Result<StoredSettings>)
      modifies this
      ensures settingsFiles == old(settingsFiles)
      ensures path.Some? ==> existing == old(existing)
                             && r == ParseSettings(if path.value in settingsFiles
                                                   then Some(settingsFiles[path.value]) else None)
      ensures path.None? && (SettingsDir in old(existing) || createDirError.None?) ==>
                r == ParseSettings(if SettingsPath in settingsFiles then Some(settingsFiles[SettingsPath]) else None)
      ensures path.None? && SettingsDir !in old(existing) && createDirError.Some? ==>
                r == Err(createDirError.value)
    {
      var settingsPath: string;
      match path {
        case Some(p) =>
          settingsPath := p;
        case None =>
          var located := SettingsFilePath();
          if located.Err? {
            return Err(located.error);
          }
          settingsPath := located.value;
      }
      if settingsPath !in settingsFiles {
        return Ok(DefaultSettings());
      }
      match settingsFiles[settingsPath] {
        case Unreadable(e) => return Err(e);
        case Malformed(e) => return Err(e);
        case Serialized(stored) =>
          var settings := stored;
          if settings.version < 1 {
            settings := settings.(version := 1);
          }
          return Ok(settings);
      }
    }

    /** `write_settings`: the record replaces the settings file, unless the
      directory cannot be made or the write fails. */
    method WriteSettings(s: StoredSettings) returns (r: Result<()>)
      modifies this
      ensures r.Ok? <==> (SettingsDir in old(existing) || createDirError.None?) && writeError.None?
      ensures r.Ok? ==> settingsFiles == old(settingsFiles)[SettingsPath := Serialized(s)]
      ensures r.Err? ==> settingsFiles == old(settingsFiles)
      ensures existing == old(existing) || existing == old(existing) + {SettingsDir}
    {
      var located := SettingsFilePath();
      if located.Err? {
        return Err(located.error);
      }
      if writeError.Some? {
        return Err(writeError.value);
      }
      settingsFiles := settingsFiles[located.value := Serialized(s)];
      return Ok(());
    }

    /** `validate_db`: the checks in order, the first failing one giving
      the message. */
    function ValidateDb(path: string): (v: ValidationResult)
      reads this
      ensures v.valid <==> path != "" && path in existing && path !in openError && path !in pragmaError
      ensures path == "" ==> v.message == "Database path cannot be empty"
      ensures path != "" && path !in existing ==> v.message == "Database file does not exist: " + path
      ensures path != "" && path in existing && path in openError ==>
                v.message == "Could not open database: " + openError[path]
      ensures path != "" && path in existing && path !in openError && path in pragmaError ==>
                v.message == "Database validation failed: " + pragmaError[path]
      ensures v.valid ==> v.message == "Database is valid and accessible"
    {
      if path == "" then ValidationResult(false, "Database path cannot be empty")
      else if path !in existing then ValidationResult(false, "Database file does not exist: " + path)
      else if path in openError then ValidationResult(false, "Could not open database: " + openError[path])
      else if path in pragmaError then ValidationResult(false, "Database validation failed: " + pragmaError[path])
      else ValidationResult(true, "Database is valid and accessible")
    }

    /** `backup_db` with the clock's timestamp as a parameter. */
    method BackupDb(path: string, timestamp: string) returns (r: Result<BackupResult>)
      modifies this
      ensures (r, existing) == Backup(path, timestamp, old(existing), createDirError, copyError)
      ensures settingsFiles == old(settingsFiles)
    {
      if path == "" {
        return Ok(BackupResult(false, None, "Database path cannot be empty"));
      }
      if path !in existing {
        return Ok(BackupResult(false, None, "Database file does not exist: " + path));
      }
      if BackupDir !in existing {
        if createDirError.Some? {
          return Err(createDirError.value);
        }
        existing := existing + {SettingsDir, BackupDir};
      }
      var fileName := FileName(path).GetOr("database");
      var backupPath := BackupDir + "/" + fileName + "_" + timestamp + ".bak";
      match copyError {
        case Some(e) =>
          return Ok(BackupResult(false, None, "Failed to backup database: " + e));
        case None =>
          existing := existing + {backupPath};
          return Ok(BackupResult(true, Some(backupPath), "Database backed up successfully"));
      }
    }
  }

  /** The empty path is refused before anything else, with a message about
      emptiness. */
  lemma ValidateEmptyPath(d: Disk)
    ensures !d.ValidateDb("").valid && Contains(d.ValidateDb("").message, "empty")
  {
    assert "Database path cannot be empty" == "Database path cannot be " + "empty" + "";
    ContainsMiddle("Database path cannot be ", "empty", "");
  }

  /** A path that does not exist is refused with a message saying so. */
  lemma ValidateMissingPath(d: Disk, path: string)
    requires path != "" && path !in d.existing
    ensures !d.ValidateDb(path).valid && Contains(d.ValidateDb(path).message, "does not exist")
  {
    assert "Database file does not exist: " + path == "Database file " + "does not exist" + (": " + path);
      ContainsMiddle("Database file ", "does not exist", ": " + path);
  }

  /** A database that opens and answers the version query is reported
      valid. */
  lemma ValidateGoodDatabase(d: Disk, path: string)
    requires path != "" && path in d.existing && path !in d.openError && path !in d.pragmaError
    ensures d.ValidateDb(path).valid && Contains(d.ValidateDb(path).message, "valid")
  {
    assert "Database is valid and accessible" == "Database is " + "valid" + " and accessible";
    ContainsMiddle("Database is ", "valid", " and accessible");
  }
}
