/** The storage hook: the application's projects and references, loaded
    once from a JSON data file in the application-data directory, seeded
    with the fixture when there is nothing usable to load, and written back
    on every update. The file system is a `DataDirectory` whose reads and
    writes may fail. */
module TauriStorage {
  import opened Wrappers
  import opened Types
  import opened MockData

  /** What the data file holds: nothing, text that does not parse, or a
      data record. */
  datatype FileState = Missing | Unparsable | Holds(data: AppData)

  /** A state update: a new value, or a function of the previous one. */
  datatype Update = Replace(value: AppData) | Apply(f: AppData -> AppData)

  function Next(u: Update, prev: AppData): (r: AppData)
    ensures u.Replace? ==> r == u.value
    ensures u.Apply? ==> r == u.f(prev)
  {
    match u
    case Replace(v) => v
    case Apply(f) => f(prev)
  }

  /** The first state: no projects, no references, still loading. */
  const Empty := AppData([], [])

  /** `readDataFile`: the file's record, or none when not running inside
      the desktop shell, when the file is missing, when reading fails or
      when the text does not parse. */
  function ReadDataFile(tauri: bool, file: FileState, readError: bool): (r: Option<AppData>)
    ensures r.Some? <==> tauri && file.Holds? && !readError
    ensures r.Some? ==> r.value == file.data
  {
    if tauri && file.Holds? && !readError then Some(file.data) else None
  }

  /** The data directory and its one data file. */
  class DataDirectory {
    var file: FileState

    constructor (file: FileState)
      ensures this.file == file
    {
      this.file := file;
    }

    /** `writeDataFile`: outside the desktop shell nothing is written; a
      failed write is swallowed and leaves the file as it was. */
    method WriteDataFile(tauri: bool, data: AppData, writeError: bool)
      modifies this
      ensures file == (if tauri && !writeError then Holds(data) else old(file))
    {
      if !tauri {
        return;
      }
      if !writeError {
        file := Holds(data);
      }
    }
  }

  /** The outcome of a completed load inside the shell: the data shown and
      what the data file holds afterwards. */
  function Load(file: FileState, readError: bool, writeError: bool): (r: (AppData, FileState))
    ensures file.Holds? && !readError ==> r == (file.data, file)
    ensures !(file.Holds? && !readError) ==> r.0 == MockAppData
    ensures !(file.Holds? && !readError) ==> r.1 == (if writeError then file else Holds(MockAppData))
  {
    match ReadDataFile(true, file, readError)
    case Some(d) => (d, file)
    case None => (MockAppData, if writeError then file else Holds(MockAppData))
  }

  /** A first start seeds the file with the fixture; the next start finds
      it and loads it without seeding again. */
  lemma SeedThenReload(readError: bool)
    ensures Load(Missing, false, false) == (MockAppData, Holds(MockAppData))
    ensures Load(Load(Missing, readError, false).1, false, false) == (MockAppData, Holds(MockAppData))
  {
  }

  /** A file that cannot be read or parsed is treated exactly like a
      missing one: it is overwritten with the fixture, whatever it held. */
  lemma UnreadableFileReseeded(file: FileState, d: AppData)
    requires file == Unparsable || file == Holds(d)
    ensures Load(file, true, false) == (MockAppData, Holds(MockAppData))
    ensures Load(Unparsable, false, false) == Load(Missing, false, false)
  {
  }

  /** Data persisted by an update is what the next start loads. */
  lemma PersistThenReload(d: AppData)
    ensures Load(Holds(d), false, false) == (d, Holds(d))
  {
  }

  /** The storage hook's state. */
  class Storage {
    var data: AppData
    var loading: bool
    var mounted: bool
    const dir: DataDirectory
    const hasWindow: bool
    /** `isTauriEnvironment()`: a browser window with one of the shell's
      markers. */
    const tauri: bool

    constructor (dir: DataDirectory, hasWindow: bool, shellMarkers: bool)
      ensures this.dir == dir && this.hasWindow == hasWindow
      ensures tauri == (hasWindow && shellMarkers)
      ensures data == Empty && loading && mounted && Valid()
    {
      this.dir := dir;
      this.hasWindow := hasWindow;
      tauri := hasWindow && shellMarkers;
      data := Empty;
      loading := true;
      mounted := true;
    }

    /** The shell is never detected without a window. */
    predicate Valid()
      reads this
    {
      tauri ==> hasWindow
    }

    /** The mount effect. Without a window or outside the shell the
      fixture is shown at once and no file is touched. Inside the shell the
      file is read; `unmounted` says the hook went away during the read,
      after which nothing changes, and `loadError` that the load threw
      before it got that far, after which the fixture is shown. */
    method Mount(readError: bool, writeError: bool, unmounted: bool, loadError: bool)
      requires Valid() && mounted
      modifies this, dir
      ensures !tauri ==> data == MockAppData && !loading && dir.file == old(dir.file) && mounted
      ensures tauri && loadError ==> data == MockAppData && !loading && dir.file == old(dir.file) && mounted
      ensures tauri && !loadError && unmounted ==>
                data == old(data) && loading == old(loading) && dir.file == old(dir.file) && !mounted
      ensures tauri && !loadError && !unmounted ==>
                (data, dir.file) == Load(old(dir.file), readError, writeError) && !loading && mounted
    {
      if !hasWindow {
        data := MockAppData;
        loading := false;
        return;
      }
      if !tauri {
        data := MockAppData;
        loading := false;
        return;
      }
      if loadError {
        if mounted {
          data := MockAppData;
          loading := false;
        }
        return;
      }
      var fileData := ReadDataFile(tauri, dir.file, readError);
      if unmounted {
        mounted := false;
      }
      if !mounted {
        return;
      }
      if fileData.Some? {
        data := fileData.value;
      } else {
        dir.WriteDataFile(tauri, MockAppData, writeError);
        data := MockAppData;
      }
      loading := false;
    }

    /** The cleanup of the mount effect. */
    method Unmount()
      modifies this
      ensures !mounted && data == old(data) && loading == old(loading)
    {
      mounted := false;
    }

    /** `setStoredData`: the new value is shown whatever happens to the
      write, and written to the file only inside the shell. */
    method SetStoredData(u: Update, writeError: bool)
      modifies this, dir
      ensures data == Next(u, old(data))
      ensures dir.file == (if tauri && !writeError then Holds(data) else old(dir.file))
      ensures loading == old(loading) && mounted == old(mounted)
    {
      data := Next(u, data);
      dir.WriteDataFile(tauri, data, writeError);
    }
  }

  /** A first start inside the shell on an empty data directory seeds the
      file with the fixture; the user then replaces the data with `d`; the
      next start loads `d` and does not seed again. */
  method SeedUpdateRestart(d: AppData) returns (first: AppData, second: AppData, file: FileState)
    ensures first == MockAppData && second == d && file == Holds(d)
  {
    var dir := new DataDirectory(Missing);
    var s1 := new Storage(dir, true, true);
    s1.Mount(false, false, false, false);
    first := s1.data;
    s1.SetStoredData(Replace(d), false);
    var s2 := new Storage(dir, true, true);
    s2.Mount(false, false, false, false);
    second := s2.data;
    file := dir.file;
  }
}
