/** The Preferences dialog: a committed settings record and a draft the user
    edits, with load, file choice, database test, apply (backing up the old
    database first), cancel and reset. The settings service's answers are
    parameters of the handlers; the clock's time is too. */
module Preferences {
  import opened Wrappers
  import opened SettingsBackend
  import opened SettingsClient
  import opened Dom

  datatype StatusKind = Success | Error | Info

  datatype StatusMessage = StatusMessage(kind: StatusKind, message: string)

  /** A call the dialog makes to the settings service while applying. */
  datatype ServiceCall = BackupCall(path: string) | SaveCall(settings: StoredSettings)

  /** An edit of one draft field from the form. `SetMaxBackups` carries
      what `parseInt` made of the input: none for "not a number". */
  datatype DraftEdit =
    | SetDatabasePath(path: string)
    | SetTheme(theme: string)
    | SetBackupEnabled(enabled: bool)
    | SetMaxBackups(parsed: Option<int>)

  /** `parseInt(v) || 10`: "not a number" and 0 both become 10. */
  function MaxBackups(parsed: Option<int>): (n: int)
    ensures n != 0
    ensures parsed.None? || parsed == Some(0) ==> n == 10
    ensures parsed.Some? && parsed.value != 0 ==> n == parsed.value
  {
    if parsed.None? || parsed.value == 0 then 10 else parsed.value
  }

  /** The path to back up before a change of database: the committed path,
      when it changes, backups are on and it is not empty. */
  function BackupTarget(original: Option<StoredSettings>, draft: StoredSettings): (p: Option<string>)
    ensures p.Some? <==> original.Some? && original.value.databasePath != draft.databasePath
                         && original.value.backupEnabled && original.value.databasePath != ""
    ensures p.Some? ==> p.value == original.value.databasePath && p.value != draft.databasePath
  {
    if original.Some? && original.value.databasePath != draft.databasePath
       && original.value.backupEnabled && original.value.databasePath != ""
    then Some(original.value.databasePath)
    else None
  }

  /** The calls of one apply: at most one backup, of the old database, and
      then the save of the draft. */
  function ApplyCalls(original: Option<StoredSettings>, draft: StoredSettings): (calls: seq<ServiceCall>)
    ensures 1 <= |calls| <= 2 && calls[|calls| - 1] == SaveCall(draft)
    ensures forall k :: 0 <= k < |calls| - 1 ==> calls[k].BackupCall?
  {
    match BackupTarget(original, draft)
    case Some(p) => [BackupCall(p), SaveCall(draft)]
    case None => [SaveCall(draft)]
  }

  /** A backup never targets the path being switched to, and is made only
      when the committed path changes. */
  lemma ApplyBacksUpOldPath(original: Option<StoredSettings>, draft: StoredSettings, k: nat)
    requires k < |ApplyCalls(original, draft)| && ApplyCalls(original, draft)[k].BackupCall?
    ensures original.Some? && ApplyCalls(original, draft)[k].path == original.value.databasePath
    ensures ApplyCalls(original, draft)[k].path != draft.databasePath
    ensures k == 0
  {
  }

  /** Applying an unchanged database path makes no backup. */
  lemma NoBackupWithoutPathChange(original: StoredSettings, draft: StoredSettings)
    requires original.databasePath == draft.databasePath
    ensures ApplyCalls(Some(original), draft) == [SaveCall(draft)]
  {
  }

  /** The status message a backup attempt leaves. A failed backup is raised
      as an `Error` whose text is prefixed with "Error: ". */
  function BackupStatus(reply: Result<BackupResult>): (m: StatusMessage)
    ensures m.kind == Info <==> reply.Ok? && reply.value.success
    ensures m.kind != Info ==> m.kind == Error
  {
    match reply
    case Ok(b) =>
      if b.success then
        StatusMessage(Info, "Previous database backed up to: " + b.backupPath.GetOr("undefined"))
      else
        StatusMessage(Error, "Warning: Failed to backup previous database: Error: " + b.message)
    case Err(e) => StatusMessage(Error, "Warning: Failed to backup previous database: " + e)
  }

  class PreferencesDialog {
    var original: Option<StoredSettings>
    var draft: Option<StoredSettings>
    var loading: bool
    var status: Option<StatusMessage>
    var validation: Option<ValidationResult>
    var testingDb: bool
    /** Whether the dialog is open, as its owner was last told. */
    var open: bool
    /** The document root `applyTheme` changes. */
    const root: RootElement

    constructor (root: RootElement, open: bool)
      ensures this.root == root && this.open == open
      ensures original.None? && draft.None? && !loading && status.None? && validation.None? && !testingDb
    {
      this.root := root;
      this.open := open;
      original := None;
      draft := None;
      loading := false;
      status := None;
      validation := None;
      testingDb := false;
    }

    /** `loadSettings`: on success both records become the loaded one and
      the messages are cleared; on failure only an error is shown. */
    method LoadSettings(reply: Result<StoredSettings>)
      modifies this
      ensures !loading && testingDb == old(testingDb) && open == old(open)
      ensures reply.Ok? ==> original == Some(reply.value) && draft == Some(reply.value)
                            && status.None? && validation.None?
      ensures reply.Err? ==> original == old(original) && draft == old(draft) && validation == old(validation)
                             && status == Some(StatusMessage(Error, "Failed to load settings: " + reply.error))
    {
      loading := true;
      match reply {
        case Ok(settings) =>
          original := Some(settings);
          draft := Some(settings);
          status := None;
          validation := None;
        case Err(e) =>
          status := Some(StatusMessage(Error, "Failed to load settings: " + e));
      }
      loading := false;
    }

    /** `handleChooseDbFile`: a chosen path replaces only the draft's
      database path and clears the last test result. */
    method HandleChooseDbFile(reply: Result<Option<string>>)
      modifies this
      ensures original == old(original) && loading == old(loading) && testingDb == old(testingDb)
      ensures open == old(open)
      ensures reply.Ok? && reply.value.Some? && reply.value.value != "" && old(draft).Some? ==>
                draft == Some(old(draft).value.(databasePath := reply.value.value))
                && validation.None? && status == old(status)
      ensures !(reply.Ok? && reply.value.Some? && reply.value.value != "" && old(draft).Some?) ==>
                draft == old(draft) && validation == old(validation)
      ensures reply.Ok? ==> status == old(status)
      ensures reply.Err? ==> status == Some(StatusMessage(Error, "Failed to select database file: " + reply.error))
    {
      match reply {
        case Ok(path) =>
          if path.Some? && path.value != "" && draft.Some? {
            draft := Some(draft.value.(databasePath := path.value));
            validation := None;
          }
        case Err(e) =>
          status := Some(StatusMessage(Error, "Failed to select database file: " + e));
      }
    }

    /** `handleTestDb`: nothing without a draft path; otherwise the result is
      shown, a valid database stamps the draft with `now`, and a failed
      call becomes an invalid result. */
    method HandleTestDb(reply: Result<ValidationResult>, now: string)
      modifies this
      ensures original == old(original) && status == old(status) && loading == old(loading)
      ensures open == old(open)
      ensures old(draft).None? || old(draft).value.databasePath == "" ==>
                draft == old(draft) && validation == old(validation) && testingDb == old(testingDb)
      ensures old(draft).Some? && old(draft).value.databasePath != "" ==> !testingDb
      ensures old(draft).Some? && old(draft).value.databasePath != "" && reply.Ok? ==>
                validation == Some(reply.value)
                && draft == (if reply.value.valid then Some(old(draft).value.(lastVerified := Some(now)))
                             else old(draft))
      ensures old(draft).Some? && old(draft).value.databasePath != "" && reply.Err? ==>
                validation == Some(ValidationResult(false, "Validation failed: " + reply.error))
                && draft == old(draft)
    {
      if draft.None? || draft.value.databasePath == "" {
        return;
      }
      testingDb := true;
      match reply {
        case Ok(result) =>
          validation := Some(result);
          if result.valid {
            draft := Some(draft.value.(lastVerified := Some(now)));
          }
        case Err(e) =>
          validation := Some(ValidationResult(false, "Validation failed: " + e));
      }
      testingDb := false;
    }

    /** `handleDbChangeWithBackup`: backs up the committed database when
      backups are on and it has a path; a failure only warns. */
    method HandleDbChangeWithBackup(reply: Result<BackupResult>) returns (calls: seq<ServiceCall>)
      requires original.Some? && draft.Some?
      modifies this
      ensures original == old(original) && draft == old(draft) && validation == old(validation)
      ensures loading == old(loading) && testingDb == old(testingDb) && open == old(open)
      ensures original.value.backupEnabled && original.value.databasePath != "" ==>
                calls == [BackupCall(original.value.databasePath)] && status == Some(BackupStatus(reply))
      ensures !(original.value.backupEnabled && original.value.databasePath != "") ==>
                calls == [] && status == old(status)
    {
      calls := [];
      if original.value.backupEnabled && original.value.databasePath != "" {
        calls := [BackupCall(original.value.databasePath)];
        match reply {
          case Ok(b) =>
            if !b.success {
              status := Some(StatusMessage(Error, "Warning: Failed to backup previous database: Error: " + b.message));
            } else {
              status := Some(StatusMessage(Info, "Previous database backed up to: " + b.backupPath.GetOr("undefined")));
            }
          case Err(e) =>
            status := Some(StatusMessage(Error, "Warning: Failed to backup previous database: " + e));
        }
      }
    }

    /** `handleApply`: back up the old database when the path changed, then
      save the draft; a saved draft becomes the committed record and its
      theme is applied. The service's answers to the backup and the save,
      and the colour-scheme preference, are parameters. */
    method HandleApply(backupReply: Result<BackupResult>, saveReply: Result<()>, prefersDark: bool)
      returns (calls: seq<ServiceCall>)
      modifies this, root
      ensures draft == old(draft) && validation == old(validation) && testingDb == old(testingDb)
      ensures open == old(open)
      ensures old(draft).None? ==> calls == [] && original == old(original) && status == old(status)
                                   && loading == old(loading) && root.classList == old(root.classList)
      ensures old(draft).Some? ==> calls == ApplyCalls(old(original), old(draft).value) && !loading
      ensures old(draft).Some? && saveReply.Ok? ==>
                original == old(draft)
                && status == Some(StatusMessage(Success, "Settings saved successfully!"))
                && root.classList == ThemeClasses(old(root.classList), old(draft).value.theme, prefersDark)
      ensures old(draft).Some? && saveReply.Err? ==>
                original == old(original)
                && status == Some(StatusMessage(Error, "Failed to save settings: " + saveReply.error))
                && root.classList == old(root.classList)
    {
      if draft.None? {
        return [];
      }
      loading := true;
      calls := [];
      if original.Some? && original.value.databasePath != draft.value.databasePath {
        calls := HandleDbChangeWithBackup(backupReply);
      }
      calls := calls + [SaveCall(draft.value)];
      match saveReply {
        case Ok(_) =>
          original := Some(draft.value);
          ApplyTheme(root, draft.value.theme, prefersDark);
          status := Some(StatusMessage(Success, "Settings saved successfully!"));
        case Err(e) =>
          status := Some(StatusMessage(Error, "Failed to save settings: " + e));
      }
      loading := false;
    }

    /** `handleCancel`: the draft goes back to the committed record, the
      messages are cleared and the dialog closes. */
    method HandleCancel()
      modifies this
      ensures original == old(original) && loading == old(loading) && testingDb == old(testingDb)
      ensures draft == (if original.Some? then original else old(draft))
      ensures status.None? && validation.None? && !open
    {
      if original.Some? {
        draft := original;
      }
      status := None;
      validation := None;
      open := false;
    }

    /** `handleReset`: like cancel, but only with a committed record, and
      the dialog stays open. */
    method HandleReset()
      modifies this
      ensures original == old(original) && loading == old(loading) && testingDb == old(testingDb)
      ensures open == old(open)
      ensures original.Some? ==> draft == original && status.None? && validation.None?
      ensures original.None? ==> draft == old(draft) && status == old(status) && validation == old(validation)
    {
      if original.Some? {
        draft := original;
        status := None;
        validation := None;
      }
    }

    /** The form's field edits, made on the draft while there is one. */
    method EditDraft(edit: DraftEdit)
      modifies this
      ensures original == old(original) && status == old(status) && validation == old(validation)
      ensures loading == old(loading) && testingDb == old(testingDb) && open == old(open)
      ensures old(draft).None? ==> draft.None?
      ensures old(draft).Some? ==> draft == Some(Edited(old(draft).value, edit))
    {
      if draft.Some? {
        draft := Some(Edited(draft.value, edit));
      }
    }
  }

  /** The draft after one field edit: that field changes and no other. */
  function Edited(d: StoredSettings, edit: DraftEdit): (e: StoredSettings)
    ensures e.version == d.version && e.lastVerified == d.lastVerified
    ensures edit.SetDatabasePath? ==> e == d.(databasePath := edit.path)
    ensures edit.SetTheme? ==> e == d.(theme := edit.theme)
    ensures edit.SetBackupEnabled? ==> e == d.(backupEnabled := edit.enabled)
    ensures edit.SetMaxBackups? ==> e == d.(maxBackups := MaxBackups(edit.parsed)) && e.maxBackups != 0
  {
    match edit
    case SetDatabasePath(p) => d.(databasePath := p)
    case SetTheme(t) => d.(theme := t)
    case SetBackupEnabled(b) => d.(backupEnabled := b)
    case SetMaxBackups(n) => d.(maxBackups := MaxBackups(n))
  }

  /** Loading, editing and resetting gives back the loaded record. */
  method ResetUndoesEdits(root: RootElement, loaded: StoredSettings, edits: seq<DraftEdit>)
    returns (p: PreferencesDialog)
    ensures p.draft == Some(loaded) && p.original == Some(loaded)
  {
    p := new PreferencesDialog(root, true);
    p.LoadSettings(Ok(loaded));
    var i := 0;
    while i < |edits|
      invariant 0 <= i <= |edits|
      invariant p.original == Some(loaded) && p.draft.Some?
      modifies p
    {
      p.EditDraft(edits[i]);
      i := i + 1;
    }
    p.HandleReset();
  }

  /** A successful save then a reset keeps the applied record, even when
      the backup of the old database failed. */
  method ApplyThenReset(root: RootElement, loaded: StoredSettings, edit: DraftEdit, prefersDark: bool)
    returns (p: PreferencesDialog)
    modifies root
    ensures p.original == Some(Edited(loaded, edit)) && p.draft == p.original
  {
    p := new PreferencesDialog(root, true);
    p.LoadSettings(Ok(loaded));
    p.EditDraft(edit);
    var _ := p.HandleApply(Err("copy failed"), Ok(()), prefersDark);
    p.HandleReset();
  }
}
