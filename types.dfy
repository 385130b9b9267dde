/** The records of the reference library: projects, references, the
    aggregate the UI observes, and the theme-centred settings record. */
module Types {
  import opened Wrappers

  datatype Status = Finished | NotFinished {
    function Label(): string {
      match this
      case Finished => "Finished"
      case NotFinished => "Not Finished"
    }
  }

  /** A bibliographic reference. `journal`, `doi` and `notes` are optional;
      `status` is required by the declared type, but a record that was
      built without it (as every seed record is) carries `None`. */
  datatype Reference = Reference(
    id: string,
    title: string,
    authors: seq<string>,
    year: int,
    journal: Option<string>,
    doi: Option<string>,
    abstractText: string,
    tags: seq<string>,
    priority: int,
    projectId: string,
    createdAt: string,
    status: Option<Status>,
    notes: Option<string>)

  /** A priority of 0 means "no priority"; 1 to 5 are star counts. */
  predicate ValidPriority(p: int) {
    0 <= p <= 5
  }

  datatype Project = Project(id: string, name: string, color: string)

  datatype AppData = AppData(projects: seq<Project>, references: seq<Reference>)

  datatype Theme = System | Light | Dark {
    function Name(): string {
      match this
      case System => "system"
      case Light => "light"
      case Dark => "dark"
    }
  }

  /** The settings record of the theme provider stack; `db_path = None`
      means "use the default database location". */
  datatype AppSettings = AppSettings(version: int, dbPath: Option<string>, theme: Theme)

  /** `projects.find(p => p.id === id)`: the first project with that id. */
  function FindProject(projects: seq<Project>, id: string): (r: Option<Project>)
    ensures r.None? <==> forall k :: 0 <= k < |projects| ==> projects[k].id != id
    ensures r.Some? ==> r.value.id == id && exists k ::
              0 <= k < |projects| && projects[k] == r.value && forall j :: 0 <= j < k ==> projects[j].id != id
  {
    if projects == [] then None
    else if projects[0].id == id then Some(projects[0])
    else FindProject(projects[1..], id)
  }
}
