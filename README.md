# RefForge in Dafny

RefForge is a desktop reference manager. Its front end is written in React/TypeScript and its back end in Rust on the Tauri shell. This project models the parts of RefForge that hold logic and proves properties about them:

- **Filter engine.** The reference filter behind the main list: project, exact priority, all active tags, and a case-insensitive search over title, authors and abstract.
- **Page helpers.**
  - The tag cloud: each tag once.
  - The tag and selection toggles.
  - Select-all.
  - The page title.
- **Reference form.** The add/edit form: its validation schema, its default values, and how it splits author and tag lists on submit and merges edits.
- **BibTeX export.** The exporter with its derived citation key and optional fields.
- **Settings, first stack.** This stack keeps a record with a database path, theme, backup flag and backup count:
  - the Preferences dialog, a draft/committed state machine with a backup of the old database before a path change;
  - the Rust settings back end: defaults, version migration, `validate_db` and `backup_db`;
  - its TypeScript client: defaults, fallbacks and `applyTheme`.
- **Settings, second stack.** This stack keeps a record with a nullable database path:
  - the `useSettings` hook;
  - the theme provider, which resolves "system" to light or dark and sets the root element's class;
  - the preferences dialog, which normalises the default path to "none" and prompts for a restart.
- **Storage hook.** It loads the data file, seeds it with the fixture when nothing usable is there, and writes every update back.
- **Display rules.**
  - Reference card: project lookup, status toggle and tag limits.
  - Star rating: the fill rule and its hover state.
  - Sidebar: the new-project form and the priority filter.
- **Fixture.** The seed fixture and the shared datatypes.

Stateful components and hooks are classes whose methods update their fields. Pure expressions are functions.

Inputs from outside the program become parameters or fields:

- **File system.** A set of existing paths, a data-file state, and the settings files.
- **SQLite.** Maps of paths whose open or `user_version` query fails.
- **Dialogs and back-end calls.** Each one's answer is a parameter, usually a `Result` (`Err` stands for a thrown error).
- **Clock.** The current year and timestamps are string or integer parameters.
- **Environment.** The OS colour-scheme preference and the shell detection are booleans.

One module per source file. `Wrappers` holds `Option`/`Result`. `Strings` holds the JavaScript string operations the code uses:

- `toLowerCase`, `includes` and `trim`;
- one-character `split` and `join`;
- number-to-string conversion;
- the citation-key word helpers.

## Model

| member | source | states |
|---|---|---|
| Types.FindProject | src/app/page.tsx:74 | `find` by id: none iff no project has the id; otherwise the first project with that id |
| MockData.MockIdsDistinct | src/data/mock-data.ts:3-92 | project ids proj-1..3 are distinct and reference ids ref-1..5 are distinct |
| MockData.MockReferentiallyIntact | src/data/mock-data.ts:33-89 | every fixture reference's projectId names a fixture project |
| MockData.MockReferencesWellFormed | src/data/mock-data.ts:21-92 | every fixture priority is in 0..5 and every authors list is non-empty (the BibTeX precondition) |
| MockData.MockReferencesHaveNoStatus | src/data/mock-data.ts:21-92 | no fixture reference sets `status`, although src/types/index.ts:13 requires it |
| Strings.ToLower | src/hooks/use-filtered-references.ts:22 | lower-casing keeps the length and maps each character |
| Strings.ToLowerIdempotent | src/hooks/use-filtered-references.ts:22-26 | lower-casing twice is lower-casing once |
| Strings.ContainsAt | src/hooks/use-filtered-references.ts:22 | `includes` holds whenever the term occurs at some position |
| Strings.ContainsMiddle | src-tauri/src/settings.rs:100-110 | a string contains every word placed inside it |
| Strings.TrimBlank | src/components/app-sidebar.tsx:63 | `trim` gives "" exactly when every character is whitespace: tab, vertical tab, form feed, BOM, a Zs space separator or a line terminator |
| Strings.TrimLeadingSpace | src/components/add-reference-dialog.tsx:110 | a leading space is dropped by `trim` |
| Strings.Split | src/components/add-reference-dialog.tsx:110 | `split(",")` gives at least one piece and no piece contains the separator |
| Strings.SplitWithoutSeparator | src/components/add-reference-dialog.tsx:110 | a string without the separator splits into itself |
| Strings.SplitAround | src/components/add-reference-dialog.tsx:110-111 | splitting `a + sep + b` is splitting `a` followed by splitting `b` |
| Strings.SplitTrimJoin | src/components/add-reference-dialog.tsx:75-111 | joining safe items with ", " then splitting on "," and trimming gives back the items |
| Strings.NatToStringDigits | src/lib/bibtex.ts:7-14 | a non-negative number prints as decimal digits only |
| Strings.IntToStringSign | src/lib/bibtex.ts:7-14 | a number prints with a leading '-' iff negative, digits otherwise |
| Strings.LettersOnly | src/lib/bibtex.ts:9 | `replace(/[^a-zA-Z]/g, "")` yields only ASCII letters and keeps every letter present |
| Strings.LettersOnlyAppend | src/lib/bibtex.ts:9 | the letters of `a + b` are those of `a` followed by those of `b`, so order and repetitions are kept |
| Strings.LettersOnlyChar | src/lib/bibtex.ts:9 | one character is kept iff it is an ASCII letter |
| Strings.LettersOnlyOfLetters | src/lib/bibtex.ts:9 | a word of letters is left unchanged |
| Strings.FirstWord | src/lib/bibtex.ts:8 | `split(" ")[0]` is a blank-free prefix followed by a blank or the end |
| Strings.FirstWordBeforeBlank | src/lib/bibtex.ts:8 | the first word of `a + " " + b` is `a` when `a` has no blank |
| Strings.LastWordAfterLastBlank | src/lib/bibtex.ts:7 | `split(" ").pop()` of `a + " " + b` is `b` when `b` has no blank |
| Strings.LastWordAfterBlank | src/lib/bibtex.ts:7 | the last word is a blank-free suffix preceded by a blank or the start |
| FilteredReferences.Filter | src/hooks/use-filtered-references.ts:13-29 | a reference is in the result iff it is in the input and passes all four tests; a kept reference keeps every copy and a dropped one keeps none |
| FilteredReferences.UseFilteredReferences | src/hooks/use-filtered-references.ts:11-12 | absent references give []; otherwise the result is the filter |
| FilteredReferences.FilterIsSubsequence | src/hooks/use-filtered-references.ts:13 | the result is a subsequence of the input in the original order |
| FilteredReferences.FilterWithoutCriteria | src/hooks/use-filtered-references.ts:14-26 | no project, null/0 priority, no tags and empty search return the input unchanged |
| FilteredReferences.FilterAgrees | src/hooks/use-filtered-references.ts:28 | criteria that keep the same references give the same result |
| FilteredReferences.FilterAbsorbs | src/hooks/use-filtered-references.ts:13-28 | filtering by a looser then a stricter criterion equals filtering by the stricter one |
| FilteredReferences.FilterIdempotent | src/hooks/use-filtered-references.ts:13-28 | re-filtering the result with the same criteria returns it unchanged |
| FilteredReferences.FilterHasAllTags | src/hooks/use-filtered-references.ts:17-19 | every kept reference carries every active tag |
| FilteredReferences.FilterMoreTags | src/hooks/use-filtered-references.ts:17-19 | adding a tag can only shrink the result, and refines it |
| FilteredReferences.FilterPriorityExact | src/hooks/use-filtered-references.ts:16 | with a non-zero priority every kept reference has exactly that priority |
| FilteredReferences.FilterPriorityZero | src/hooks/use-filtered-references.ts:16 | priority 0 filters like no priority |
| FilteredReferences.FilterSearchIgnoresCase | src/hooks/use-filtered-references.ts:22-26 | search terms equal up to case give the same result |
| FilteredReferences.SearchHitsAuthor | src/hooks/use-filtered-references.ts:23-25 | a term occurring in any author, ignoring case, matches |
| FilteredReferences.SearchExample | src/hooks/use-filtered-references.ts:22 | "deep" and "LEARNING" both find the title "Deep Learning" |
| Page.AddAllSet | src/app/page.tsx:41-42 | adding tags to a duplicate-free set keeps it duplicate-free and holds exactly the old and the new tags |
| Page.CollectTagsSet | src/app/page.tsx:41-43 | the collected tags are duplicate-free and are exactly the tags of some reference |
| Page.AllTags | src/app/page.tsx:39-44 | the nested loops give [] for absent references, otherwise each tag of any reference exactly once and no other |
| Page.RemoveAll | src/app/page.tsx:48 | `filter(t => t !== x)` removes every copy of x and keeps the count of every other element |
| Page.RemoveAllIsSubsequence | src/app/page.tsx:48 | the remaining elements keep their order |
| Page.Toggle | src/app/page.tsx:46-56 | a present element is removed and an absent one appended |
| Page.ToggleTwice | src/app/page.tsx:46-56 | toggling twice restores membership, and restores the list from an absent element |
| Page.RemoveAppended | src/app/page.tsx:48 | removing an element just appended gives back the list |
| Page.ToggleNoDuplicates | src/app/page.tsx:46-56 | toggling keeps a list duplicate-free |
| Page.RemoveAllNoDuplicates | src/app/page.tsx:48 | removing keeps a list duplicate-free |
| Page.SelectAll | src/app/page.tsx:58-64 | select-all gives exactly the filtered ids in order; deselect gives [] |
| Page.SelectAllThenToggle | src/app/page.tsx:52-64 | after select-all, toggling one id deselects it and keeps every other |
| Page.PageTitle | src/app/page.tsx:74-75 | the title is the first matching project's name, else "All References" |
| Page.FirstMatchUnique | src/app/page.tsx:74 | only one project is the first with a given id |
| ReferenceForm.DefaultValues | src/components/add-reference-dialog.tsx:72-96 | a new form has priority 0, "Not Finished", no project and the current year; an edit form shows authors and tags joined with ", " |
| ReferenceForm.ParseAuthors | src/components/add-reference-dialog.tsx:110 | authors are the comma-separated pieces, each trimmed |
| ReferenceForm.ParseTags | src/components/add-reference-dialog.tsx:111 | an absent or empty tags string gives []; otherwise the trimmed comma-separated pieces |
| ReferenceForm.MergeEdit | src/components/add-reference-dialog.tsx:113-114 | an edit replaces every form field and keeps id, createdAt and notes |
| ReferenceForm.Submit | src/components/add-reference-dialog.tsx:40-119 | an invalid form is rejected; a valid edit with an update callback hands over the edited reference merged with the processed fields; otherwise the add callback, when present, gets the processed fields; otherwise no callback runs |
| ReferenceForm.AuthorsRoundTrip | src/components/add-reference-dialog.tsx:75-110 | a non-empty list of safe authors survives join(", ") then split/trim |
| ReferenceForm.TagsRoundTrip | src/components/add-reference-dialog.tsx:80-111 | a list of safe tags survives join(", ") then split/trim |
| ReferenceForm.EditUnchangedRoundTrip | src/components/add-reference-dialog.tsx:72-114 | submitting an unchanged edit form gives back the reference |
| ReferenceForm.SubmittedReferenceHasAuthor | src/components/add-reference-dialog.tsx:110 | every submitted reference has at least one author |
| ReferenceForm.NewFormRejected | src/components/add-reference-dialog.tsx:40-95 | the blank new-reference form does not pass the schema |
| BibTeX.BuildEntry | src/lib/bibtex.ts:7-24 | the `+=` steps build exactly the entry: header, title, author, year, then the non-empty optional fields, then the closing |
| BibTeX.ToBibTeX | src/lib/bibtex.ts:3-29 | the loop's output is the entries of the references concatenated in input order |
| BibTeX.ConcatAppend | src/lib/bibtex.ts:25 | concatenation distributes over appending lists |
| BibTeX.ConcatSnoc | src/lib/bibtex.ts:25 | concatenating one more string appends it |
| BibTeX.ConcatSingle | src/lib/bibtex.ts:25 | a single string concatenates to itself |
| BibTeX.EntryText | src/lib/bibtex.ts:11-24 | an entry is the header, the three required fields, the present optional fields and the closing, joined |
| BibTeX.ExportAppend | src/lib/bibtex.ts:6-25 | exporting two lists is exporting each and concatenating |
| BibTeX.ExportSmall | src/lib/bibtex.ts:4-28 | no references export to ""; one reference exports to its entry |
| BibTeX.ConcatPrefix | src/lib/bibtex.ts:25 | the first piece of a concatenation is its prefix |
| BibTeX.EntryFraming | src/lib/bibtex.ts:11-24 | every entry starts with "@article{" + key + ",\n" and ends with "}\n\n" |
| BibTeX.FieldName | src/lib/bibtex.ts:12-22 | a field line starts with two spaces and the field name |
| BibTeX.FieldsDiffer | src/lib/bibtex.ts:12-22 | lines of different field names differ |
| BibTeX.NotAnOptionalLine | src/lib/bibtex.ts:11-24 | no optional field line equals the header, a required line or the closing |
| BibTeX.OptionalLines | src/lib/bibtex.ts:15-23 | a journal, doi or abstract line appears iff that field is non-empty, and it carries that field's value |
| BibTeX.FieldInjective | src/lib/bibtex.ts:12-22 | two lines for one field are equal iff their values are |
| BibTeX.RequiredLines | src/lib/bibtex.ts:11-14 | the header, title, author (joined with " and ") and year lines come first; 5 to 8 lines in all |
| BibTeX.KeyHasNoBlank | src/lib/bibtex.ts:7-9 | a citation key never contains a blank |
| BibTeX.KeyOfPlainNames | src/lib/bibtex.ts:7-9 | for "Given Surname" and a title starting with a word of letters, the key is surname + year + that word |
| SettingsBackend.DefaultSettings | src-tauri/src/settings.rs:29-44 | defaults are version 1, "refforge.db", "system", no last_verified, backups on, 10 backups |
| SettingsBackend.Migrate | src-tauri/src/settings.rs:71-75 | a version below 1 becomes 1; nothing else changes |
| SettingsBackend.ParseSettings | src-tauri/src/settings.rs:64-77 | a missing file gives the defaults; unreadable or malformed text is an error; a read record has version at least 1 |
| SettingsBackend.SettingsRoundTrip | src-tauri/src/settings.rs:69-91 | a written record of version at least 1 reads back unchanged |
| SettingsBackend.ReadKeepsFields | src-tauri/src/settings.rs:72-77 | reading changes no field besides the version |
| SettingsBackend.FileName | src-tauri/src/settings.rs:167-169 | a file name is non-empty, not "." or "..", and has no separator |
| SettingsBackend.NamedComponents | src-tauri/src/settings.rs:167 | the kept path components are named ones |
| SettingsBackend.FileNameInDirectory | src-tauri/src/settings.rs:167 | the file name of dir/name is name |
| SettingsBackend.BareFileName | src-tauri/src/settings.rs:167 | the file name of a bare name is the name |
| SettingsBackend.BackupPath | src-tauri/src/settings.rs:158-172 | a backup path lies in "RefForge/backups/" and ends in ".bak" |
| SettingsBackend.BackupPathOfFile | src-tauri/src/settings.rs:166-172 | a file `name` in any directory is backed up as "RefForge/backups/" + name + "_" + timestamp + ".bak" |
| SettingsBackend.BackupPathWithoutFileName | src-tauri/src/settings.rs:166-172 | a path without a file name is backed up as "RefForge/backups/database_" + timestamp + ".bak" |
| SettingsBackend.BackupOutcome | src-tauri/src/settings.rs:138-187 | success iff the path is non-empty, exists and the copy succeeds; then the path is recorded and the file created, otherwise no path |
| SettingsBackend.BackupRefusesMissing | src-tauri/src/settings.rs:139-155 | an empty or missing path fails with an "empty" or "does not exist" message and touches nothing |
| SettingsBackend.Disk.constructor | src-tauri/src/settings.rs:46-94 | the disk starts from the given files and failure maps |
| SettingsBackend.Disk.SettingsFilePath | src-tauri/src/settings.rs:46-56 | the settings directory is created when missing; a creation failure is an error |
| SettingsBackend.Disk.ReadSettings | src-tauri/src/settings.rs:58-78 | reading from the given or the default path gives the parsed, migrated record; a missing file gives the defaults |
| SettingsBackend.Disk.WriteSettings | src-tauri/src/settings.rs:80-94 | writing succeeds iff the directory exists or can be made and the write succeeds; then the file holds the record |
| SettingsBackend.Disk.ValidateDb | src-tauri/src/settings.rs:96-136 | valid iff the path is non-empty, exists, opens and answers the pragma; each failure has its own message, in that order |
| SettingsBackend.Disk.BackupDb | src-tauri/src/settings.rs:138-187 | the backup outcome and the new file set are those of `Backup` |
| SettingsBackend.ValidateEmptyPath | src-tauri/src/settings.rs:97-102 | "" is invalid with an "empty" message |
| SettingsBackend.ValidateMissingPath | src-tauri/src/settings.rs:107-112 | a missing path is invalid with a "does not exist" message |
| SettingsBackend.ValidateGoodDatabase | src-tauri/src/settings.rs:115-124 | an existing database that opens and answers the pragma is valid |
| SettingsClient.DefaultsAgree | src/lib/settings.ts:26-33 | the client defaults equal the Rust defaults field for field |
| SettingsClient.GetSettings | src/lib/settings.ts:36-43 | a failed call gives the defaults |
| SettingsClient.ChooseDbFile | src/lib/settings.ts:58-79 | a failed dialog gives none |
| SettingsClient.ThemeClasses | src/lib/settings.ts:82-98 | 'dark' is present iff the theme is "dark", or neither "dark" nor "light" and the system prefers dark; only 'dark' is touched |
| SettingsClient.ThemeClassesIdempotent | src/lib/settings.ts:82-98 | applying a theme overrides any theme applied before |
| SettingsClient.ApplyTheme | src/lib/settings.ts:82-98 | the root's classes become `ThemeClasses` of the old ones |
| Preferences.MaxBackups | src/components/Preferences.tsx:353 | a max_backups input that is not a number, or is 0, becomes 10 |
| Preferences.BackupTarget | src/components/Preferences.tsx:108-137 | a backup is due iff a committed record exists with a different path, and it targets the old path |
| Preferences.ApplyCalls | src/components/Preferences.tsx:102-113 | apply makes at most one backup call, then always the save of the draft, last |
| Preferences.ApplyBacksUpOldPath | src/components/Preferences.tsx:108-137 | the only backup call comes first and targets the committed path, never the new one |
| Preferences.NoBackupWithoutPathChange | src/components/Preferences.tsx:108 | an unchanged path makes only the save call |
| Preferences.BackupStatus | src/components/Preferences.tsx:136-151 | a successful backup gives an info message; a failed or refused one an error warning |
| Preferences.PreferencesDialog.constructor | src/components/Preferences.tsx:28-33 | the dialog starts with nothing loaded and no messages |
| Preferences.PreferencesDialog.LoadSettings | src/components/Preferences.tsx:44-60 | a load sets committed and draft to the record and clears messages; a failure sets an error; loading ends either way |
| Preferences.PreferencesDialog.HandleChooseDbFile | src/components/Preferences.tsx:62-75 | only the draft's path changes, and only for a returned path with a draft present; a failure sets an error |
| Preferences.PreferencesDialog.HandleTestDb | src/components/Preferences.tsx:77-100 | no-op for an empty path; a valid result stamps only last_verified; an invalid one leaves the draft; an error becomes an invalid result |
| Preferences.PreferencesDialog.HandleDbChangeWithBackup | src/components/Preferences.tsx:132-153 | backs up the committed path only when backups are on and the path is non-empty; sets the status from the outcome |
| Preferences.PreferencesDialog.HandleApply | src/components/Preferences.tsx:102-130 | the calls are `ApplyCalls`; a save makes committed = draft and applies the theme; a failed save keeps committed and sets an error, even after a failed backup |
| Preferences.PreferencesDialog.HandleCancel | src/components/Preferences.tsx:162-169 | the draft returns to the committed record, messages clear, the dialog closes |
| Preferences.PreferencesDialog.HandleReset | src/components/Preferences.tsx:171-177 | the draft returns to the committed record and messages clear; the dialog stays open |
| Preferences.PreferencesDialog.EditDraft | src/components/Preferences.tsx:249-356 | each input changes its own draft field only |
| Preferences.Edited | src/components/Preferences.tsx:249-356 | an edit changes exactly its field; max_backups goes through the parse rule |
| Preferences.ResetUndoesEdits | src/components/Preferences.tsx:44-177 | after loading, any edits and a reset, draft and committed are the loaded record |
| Preferences.ApplyThenReset | src/components/Preferences.tsx:102-177 | after a successful save, a reset keeps the applied record, even if the backup failed |
| UseSettings.FallbackSettings | src/hooks/use-settings.ts:19-25 | the fallback is version 1, no database path, theme "system" |
| UseSettings.SelectDatabasePath | src/hooks/use-settings.ts:48-64 | a failed save dialog gives none |
| UseSettings.GetDefaultDatabasePath | src/hooks/use-settings.ts:66-73 | a failed call gives none, a successful one its path |
| UseSettings.SettingsChannel.constructor | src/hooks/use-settings.ts:33-88 | the back end starts with no saved record and no restart |
| UseSettings.SettingsHook.constructor | src/hooks/use-settings.ts:9-10 | a hook starts with no record and loading |
| UseSettings.SettingsHook.LoadSettings | src/hooks/use-settings.ts:12-29 | a load keeps the record, a failure the fallback; loading is false afterwards either way |
| UseSettings.SettingsHook.SaveSettings | src/hooks/use-settings.ts:31-39 | the record is kept and sent only after the back end accepts it; a refusal is passed on with nothing changed |
| UseSettings.SettingsHook.UpdateTheme | src/hooks/use-settings.ts:41-46 | no-op without a record; otherwise the saved record differs only in its theme |
| UseSettings.SettingsHook.UpdateDatabasePath | src/hooks/use-settings.ts:75-80 | no-op without a record; otherwise the saved record differs only in its path |
| UseSettings.SettingsHook.UseDefaultDatabasePath | src/hooks/use-settings.ts:82-84 | exactly an update of the path to none |
| UseSettings.SettingsHook.RestartApp | src/hooks/use-settings.ts:86-93 | a restart is counted only when the back end accepts; a refusal is passed on |
| ThemeProvider.GetSystemTheme | src/components/theme-provider.tsx:23-26 | never "system"; dark iff a window exists and prefers dark, so light without a window |
| ThemeProvider.EffectiveTheme | src/components/theme-provider.tsx:49 | the record's theme, or "system" without a record |
| ThemeProvider.ActualTheme | src/components/theme-provider.tsx:50 | the system theme for "system", the setting otherwise; never "system" |
| ThemeProvider.RootClasses | src/components/theme-provider.tsx:53-57 | the root gets the theme in use and loses the other scheme class; other classes are untouched |
| ThemeProvider.ExactlyOneScheme | src/components/theme-provider.tsx:54-56 | after the effect exactly one of light and dark is on the root |
| ThemeProvider.RootClassesIdempotent | src/components/theme-provider.tsx:53-57 | re-running the effect changes nothing |
| ThemeProvider.Provider.constructor | src/components/theme-provider.tsx:33-34 | the system theme starts as light |
| ThemeProvider.Provider.Theme | src/components/theme-provider.tsx:49 | the provider's theme is the effective theme of its hook's record |
| ThemeProvider.Provider.Actual | src/components/theme-provider.tsx:50 | the provider's theme in use is never "system" |
| ThemeProvider.Provider.SyncSystemTheme | src/components/theme-provider.tsx:37-47 | without a window nothing changes; otherwise the system theme is read again |
| ThemeProvider.Provider.ApplyToRoot | src/components/theme-provider.tsx:53-57 | remove light and dark, then add the theme in use |
| ThemeProvider.Provider.SetTheme | src/components/theme-provider.tsx:59-61 | exactly the hook's `updateTheme` |
| ThemeProvider.UseTheme | src/components/theme-provider.tsx:15-21 | outside a provider the result is the error "useTheme must be used within a ThemeProvider" |
| PreferencesDialog.NewDbPath | src/components/preferences-dialog.tsx:117 | none iff the chosen path is the default one, otherwise the chosen path |
| PreferencesDialog.NewDbPathLocation | src/components/preferences-dialog.tsx:116-117 | the stored path always resolves to the location shown in the dialog |
| PreferencesDialog.PathChanged | src/components/preferences-dialog.tsx:119 | always true without a record; otherwise true iff the new path differs from the stored one |
| PreferencesDialog.RestartForDefault | src/components/preferences-dialog.tsx:91 | going back to the default needs no restart iff a record already stores none |
| PreferencesDialog.OpeningPath | src/components/preferences-dialog.tsx:55-64 | the stored path when non-empty, else the default location when known, else unchanged |
| PreferencesDialog.AfterTheme | src/components/preferences-dialog.tsx:107-108 | the theme save changes only the theme, and only when due and accepted |
| PreferencesDialog.ThemeWrites | src/components/preferences-dialog.tsx:107-108 | one record is saved iff the theme is due, a record exists and the back end accepts |
| PreferencesDialog.AfterWrites | src/hooks/use-settings.ts:31-39 | a hook's record after saving: the last accepted record, or the old record when nothing was accepted |
| PreferencesDialog.PathWrites | src/components/preferences-dialog.tsx:119-120 | one record is saved iff the path changed, a record exists and the back end accepts; it is that record with the new path |
| PreferencesDialog.Dialog.constructor | src/components/preferences-dialog.tsx:38-42 | the dialog starts with the provider's theme, empty paths, no restart |
| PreferencesDialog.Dialog.Open | src/components/preferences-dialog.tsx:44-68 | opening takes the provider's theme and the opening path, learns the default path, and clears the restart flag |
| PreferencesDialog.Dialog.SelectTheme | src/components/preferences-dialog.tsx:182 | only the local theme changes |
| PreferencesDialog.Dialog.HandleBrowseDatabasePath | src/components/preferences-dialog.tsx:70-84 | a chosen path is shown and needs a restart; a dismissed dialog changes nothing |
| PreferencesDialog.Dialog.HandleUseDefaultPath | src/components/preferences-dialog.tsx:86-100 | the default location is shown; a restart is needed by `RestartForDefault` |
| PreferencesDialog.Dialog.HandleCancel | src/components/preferences-dialog.tsx:160-164 | the local theme returns to the provider's, the restart flag clears, the dialog closes |
| PreferencesDialog.Dialog.ApplyTheme | src/components/preferences-dialog.tsx:107-113 | the theme is saved only if it differs from the provider's, with a notice; a refusal is a failure |
| PreferencesDialog.Dialog.ApplyPath | src/components/preferences-dialog.tsx:116-145 | the path is saved only if changed; then the restart prompt when a restart is needed (a failed restart gives a notice), else an update notice; the dialog's record becomes the saved one, when a save was accepted |
| PreferencesDialog.Dialog.HandleApply | src/components/preferences-dialog.tsx:102-158 | the records saved, in order, and both hooks' records afterwards (the provider's carries the applied theme); the dialog closes only after success; a failure ends with the error notice |
| PreferencesDialog.Dialog.HandleApplyMerged | src/components/preferences-dialog.tsx:102-158 | the corrected apply: one record with the chosen theme and path is saved from the record read once; the provider then shows the chosen theme; a refusal keeps the record and ends with the error notice |
| PreferencesDialog.LostThemeUpdate | src/components/preferences-dialog.tsx:34-120 | with separate settings hooks, applying a new theme and path leaves a record with the old theme |
| PreferencesDialog.SharedSettingsApply | src/components/preferences-dialog.tsx:107-120 | with one shared settings hook whose path save reads the record the theme save produced, the stored record has both the new theme and the new path, and the provider shows the new theme |
| PreferencesDialog.MergedApply | src/components/preferences-dialog.tsx:102-158 | with the corrected apply, the session stores one record with both the dark theme and the new path, the provider shows dark, and the dialog closes |
| TauriStorage.Next | src/hooks/use-tauri-storage.ts:262 | a value replaces the data; a function is applied to the previous data |
| TauriStorage.ReadDataFile | src/hooks/use-tauri-storage.ts:89-124 | the file's record only inside the shell, with the file present and readable; none otherwise |
| TauriStorage.DataDirectory.constructor | src/hooks/use-tauri-storage.ts:23 | the data directory starts with the given file |
| TauriStorage.DataDirectory.WriteDataFile | src/hooks/use-tauri-storage.ts:127-166 | outside the shell or on failure the file is unchanged; otherwise it holds the data |
| TauriStorage.Load | src/hooks/use-tauri-storage.ts:203-226 | a readable file is loaded as is; otherwise the fixture is shown and, unless the write fails, written |
| TauriStorage.SeedThenReload | src/hooks/use-tauri-storage.ts:217-226 | a first start seeds the file; the next start loads it without seeding |
| TauriStorage.UnreadableFileReseeded | src/hooks/use-tauri-storage.ts:113-222 | a read or parse failure is treated like a missing file, and the file is overwritten with the fixture |
| TauriStorage.PersistThenReload | src/hooks/use-tauri-storage.ts:210-216 | persisted data is what the next start loads |
| TauriStorage.Storage.constructor | src/hooks/use-tauri-storage.ts:173-174 | the hook starts with no projects, no references, loading |
| TauriStorage.Storage.Mount | src/hooks/use-tauri-storage.ts:176-251 | outside the shell the fixture is shown without I/O; an unmount during the read changes nothing; a thrown load shows the fixture; otherwise data and file follow `Load` |
| TauriStorage.Storage.Unmount | src/hooks/use-tauri-storage.ts:253-257 | the cleanup clears the mounted flag only |
| TauriStorage.Storage.SetStoredData | src/hooks/use-tauri-storage.ts:260-276 | the updated value is shown even when the write fails, and persisted only inside the shell |
| TauriStorage.SeedUpdateRestart | src/hooks/use-tauri-storage.ts:203-276 | seed, update to d, restart: the second start loads d |
| ReferenceCard.CardProject | src/components/reference-card.tsx:47 | the card's project has the reference's project id; none iff no project has it |
| ReferenceCard.ToggleStatus | src/components/reference-card.tsx:86-91 | Finished becomes Not Finished, anything else Finished; every other field is kept |
| ReferenceCard.ToggleStatusTwice | src/components/reference-card.tsx:89-90 | toggling a set status twice gives back the reference |
| ReferenceCard.ToggleUnsetStatus | src/components/reference-card.tsx:89-90 | an unset status toggles to Finished, then to Not Finished |
| ReferenceCard.Choose | src/components/reference-card.tsx:85-98 | Delete hands over exactly the reference's id; Toggle Status the toggled reference |
| ReferenceCard.ShownTags | src/components/reference-card.tsx:137-184 | the list view shows the first min(3, n) tags, the grid view all, always a prefix |
| ReferenceCard.RatingShowsPriority | src/components/reference-card.tsx:132-163 | a shown rating fills exactly `priority` of its 5 stars |
| StarRating.Effective | src/components/star-rating.tsx:30 | `hoverRating \|\| rating`: a zero hover falls back to the rating |
| StarRating.FilledCount | src/components/star-rating.tsx:28-30 | the filled stars number min(totalStars, max(0, effective rating)) |
| StarRating.HoverFillsUpTo | src/components/star-rating.tsx:29-36 | hovering star k fills exactly k stars |
| StarRating.Rating.constructor | src/components/star-rating.tsx:18-22 | the hover starts at 0 |
| StarRating.Rating.FilledStars | src/components/star-rating.tsx:28-30 | the widget fills min(totalStars, max(0, effective rating)) stars |
| StarRating.Rating.MouseEnter | src/components/star-rating.tsx:24-36 | entering star k previews k when interactive; without a setter the hover stays 0 |
| StarRating.Rating.MouseLeave | src/components/star-rating.tsx:37 | leaving resets the hover to 0 |
| StarRating.Rating.Click | src/components/star-rating.tsx:23-35 | clicking star k hands k to the setter, and nothing without one |
| AppSidebar.PriorityOptionsValid | src/components/app-sidebar.tsx:194 | the options are valid non-zero priorities in strictly falling order |
| AppSidebar.TogglePriority | src/components/app-sidebar.tsx:197-199 | clicking the active priority clears it; any other click selects that priority |
| AppSidebar.TogglePriorityTwice | src/components/app-sidebar.tsx:197-199 | a second click on the same option clears it; a click on another selects it |
| AppSidebar.OptionStars | src/components/app-sidebar.tsx:203-208 | option p shows 5 stars, the first p filled |
| AppSidebar.AllReferences | src/components/app-sidebar.tsx:86 | "All References" clears the active project |
| AppSidebar.AllReferencesTitle | src/components/app-sidebar.tsx:86 | with no active project the page title is "All References" |
| AppSidebar.Sidebar.constructor | src/components/app-sidebar.tsx:59-60 | the form starts closed with an empty name |
| AppSidebar.Sidebar.ToggleAddForm | src/components/app-sidebar.tsx:106 | the plus button flips the form |
| AppSidebar.Sidebar.SetName | src/components/app-sidebar.tsx:116 | typing changes only the name |
| AppSidebar.Sidebar.HandleAddProject | src/components/app-sidebar.tsx:62-68 | a name with a non-whitespace character is added trimmed and the form clears and closes; a blank name changes nothing |

## Left out

- PreferencesDialog.Dialog.HandleApply: its contract states the records saved, both hooks' records, whether the dialog closes, and the final error notice. The notices of a successful apply and the restart count are stated on `ApplyTheme` and `ApplyPath`, the two halves it runs.
- ReferenceForm.Valid: measures string lengths in code points. The schema's `.min(n)` counts UTF-16 code units, so a title such as "a" followed by one emoji passes `min(3)` in the source but not in the model.
- ReferenceForm.Valid: `year` and `priority` are integers. `z.coerce.number()` also accepts fractions such as 2020.5, which the BibTeX export would print as "2020.5"; such values are not modelled.
- Strings.ToLower: lower-cases ASCII letters only. The source's `toLowerCase` is Unicode-aware, so searches that differ only in non-ASCII case are not covered.
- StarRating.Rating.constructor: `totalStars` is a natural number. A negative count would make the source's `Array(totalStars)` throw.
- SettingsBackend.Migrate: `version` and `max_backups` are unbounded integers, not `u32`. The migration branch can only fire for version 0 in the source; the model also covers negative versions.
- SettingsBackend.FileName: handles '/' separators only, not Windows separators or non-UTF-8 names.
- Preferences.MaxBackups: takes the result of `parseInt` as an optional integer (none for NaN). The parsing of the text itself is not modelled.
- Real I/O is not modelled: Tauri's fs and dialog plugins, `invoke`, JSON and serde parsing, `fs::copy`, `create_dir_all`, rusqlite. These become the oracle parameters described above.
- Data-file contents that parse as JSON but are not a data record are not modelled. The data file is missing, unparsable, or holds a record.
- `isTauriEnvironment` is a boolean. `logToFile` and all console logging are no-ops.
- Clocks and locale are not modelled: `Utc::now`, `new Date()`, `toISOString`, `formatDistanceToNow`. Timestamps and the current year are parameters.
- Asynchrony and React scheduling are not modelled. Each handler runs as one atomic sequential step, and hook methods read the hook's current record rather than a render-time snapshot.
- The opening effect of the second preferences dialog runs once, on opening. Its re-runs when the theme or record change while open are not modelled.
- The stale read in the first Preferences dialog's `handleOk` (src/components/Preferences.tsx:155-160) is not modelled: it reads the status from before apply.
- The catch branches of `handleBrowseDatabasePath` and `handleUseDefaultPath` are not modelled. `selectDatabasePath` and `getDefaultDatabasePath` catch their own errors and return null, so these branches cannot run.
- The unused `currentDbPath` (src/components/preferences-dialog.tsx:116) has no effect and is not modelled.
- `setSettings`, `validateDb` and `backupDb` in src/lib/settings.ts forward to `invoke`. The Preferences dialog receives the service's answers as parameters instead.
- The relational sync layer is not modelled: adding, updating and deleting projects or references, and the SQL cascade. src/app/page.tsx:18-27 destructures operations that the storage hook (src/hooks/use-tauri-storage.ts:168-172) never returns, and the cascade exists only as SQL in src-tauri/src/main.rs.
- Pure view markup, icons and styling are not modelled: the JSX layout, badges, star size, class names and the status badge's label.
- Tests, mocks and build configuration are not modelled.
- The internals of zod, react-hook-form and uuid are not modelled. The form schema is a plain predicate.

## Findings

| source | as written | input that shows it | evidently intended | confidence | as-written member | corrected member |
|---|---|---|---|---|---|---|
| src/components/preferences-dialog.tsx:107-120 | the dialog holds its own `useSettings()` instance (line 34), separate from the theme provider's (src/components/theme-provider.tsx:33). The provider saves the new theme first. The dialog then saves the path on top of its own record, which still has the old theme. | both instances loaded {version 1, db_path null, theme system}; default path /home/refforge.db; choose dark, browse to /data/refs.db, apply with every call succeeding. The stored record is {1, /data/refs.db, system}. | the stored record carries both the chosen theme and the chosen path. Sharing the provider's hook alone does not give this, because `updateDatabasePath` (src/hooks/use-settings.ts:75-80) closes over the record of the render before the theme save. The correction saves one record with both the theme and the path, read once. | not executed; medium | PreferencesDialog.LostThemeUpdate | PreferencesDialog.MergedApply |
