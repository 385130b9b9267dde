/** The sidebar: the "All References" entry, the new-project form and the
    priority filter. */
module AppSidebar {
  import opened Wrappers
  import opened Types
  import opened Strings
  import Page

  /** The priority options, highest first. */
  const PriorityOptions: seq<int> := [5, 4, 3, 2, 1]

  lemma PriorityOptionsValid()
    ensures forall i :: 0 <= i < |PriorityOptions| ==> ValidPriority(PriorityOptions[i]) && PriorityOptions[i] != 0
    ensures forall i, j :: 0 <= i < j < |PriorityOptions| ==> PriorityOptions[i] > PriorityOptions[j]
  {
  }

  /** Clicking priority `p`: the active priority is cleared, any other
      choice selects `p`. */
  function TogglePriority(active: Option<int>, p: int): (r: Option<int>)
    ensures r.None? <==> active == Some(p)
    ensures r.Some? ==> r.value == p
  {
    if active == Some(p) then None else Some(p)
  }

  /** Clicking the same option twice from an unfiltered list comes back to
      it; clicking two different options leaves the second one active. */
  lemma TogglePriorityTwice(p: int, q: int)
    ensures TogglePriority(TogglePriority(None, p), p) == None
    ensures p != q ==> TogglePriority(TogglePriority(None, p), q) == Some(q)
  {
  }

  /** The stars drawn for option `p`: `p` filled ones, then `5 - p` empty
      ones. */
  function OptionStars(p: int): (stars: seq<bool>)
    requires 0 <= p <= 5
    ensures |stars| == 5
    ensures forall i :: 0 <= i < 5 ==> (stars[i] <==> i < p)
  {
    seq(p, _ => true) + seq(5 - p, _ => false)
  }

  /** The "All References" entry clears the active project. */
  function AllReferences(): (selection: Option<string>)
    ensures selection.None?
  {
    None
  }

  /** With the active project cleared the page shows every reference
      under the "All References" title. */
  lemma AllReferencesTitle(projects: seq<Project>)
    ensures Page.PageTitle(projects, AllReferences()) == "All References"
  {
  }

  class Sidebar {
    var newProjectName: string
    var isAddingProject: bool
    /** The names handed to the add-project callback, in order. */
    var added: seq<string>

    constructor ()
      ensures newProjectName == "" && !isAddingProject && added == []
    {
      newProjectName := "";
      isAddingProject := false;
      added := [];
    }

    /** The plus button. */
    method ToggleAddForm()
      modifies this
      ensures isAddingProject == !old(isAddingProject)
      ensures newProjectName == old(newProjectName) && added == old(added)
    {
      isAddingProject := !isAddingProject;
    }

    /** Typing in the name field. */
    method SetName(name: string)
      modifies this
      ensures newProjectName == name
      ensures isAddingProject == old(isAddingProject) && added == old(added)
    {
      newProjectName := name;
    }

    /** `handleAddProject`: a name with something besides whitespace is
      added trimmed, and the form is cleared and closed; otherwise nothing
      happens. */
    method HandleAddProject()
      modifies this
      ensures (exists i :: 0 <= i < |old(newProjectName)| && !IsWhitespace(old(newProjectName)[i])) ==>
                added == old(added) + [Trim(old(newProjectName))] && newProjectName == "" && !isAddingProject
      ensures (forall i :: 0 <= i < |old(newProjectName)| ==> IsWhitespace(old(newProjectName)[i])) ==>
                added == old(added) && newProjectName == old(newProjectName) && isAddingProject == old(isAddingProject)
    {
      TrimBlank(newProjectName);
      var name := Trim(newProjectName);
      if name != "" {
        added := added + [name];
        newProjectName := "";
        isAddingProject := false;
      }
    }
  }
}
