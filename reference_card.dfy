/** The reference card: the project a reference belongs to, the status
    toggle and delete actions of its menu, and which of its tags and stars
    are shown. */
module ReferenceCard {
  import opened Wrappers
  import opened Types
  import opened StarRating

  datatype ViewMode = Grid | List

  /** The card's project: the first project with the reference's project
      id, or none. */
  function CardProject(projects: seq<Project>, r: Reference): (p: Option<Project>)
    ensures p.None? <==> forall k :: 0 <= k < |projects| ==> projects[k].id != r.projectId
    ensures p.Some? ==> p.value.id == r.projectId && p.value in projects
  {
    FindProject(projects, r.projectId)
  }

  /** The status after "Toggle Status": "Finished" becomes "Not Finished",
      anything else (an unset status included) becomes "Finished". */
  function ToggleStatus(r: Reference): (t: Reference)
    ensures t.status.Some?
    ensures t.status == Some(Finished) <==> r.status != Some(Finished)
    ensures t.(status := r.status) == r
  {
    r.(status := Some(if r.status == Some(Finished) then NotFinished else Finished))
  }

  /** Toggling a set status twice gives back the reference. */
  lemma ToggleStatusTwice(r: Reference)
    requires r.status.Some?
    ensures ToggleStatus(ToggleStatus(r)) == r
  {
    var once := ToggleStatus(r);
    var twice := ToggleStatus(once);
    assert twice.status == r.status by {
      if r.status == Some(Finished) {
        assert once.status == Some(NotFinished);
      } else {
        assert r.status.value == NotFinished;
      }
    }
    assert twice == twice.(status := once.status).(status := r.status);
  }

  /** An unset status is not restored by two toggles: it ends as
      "Not Finished". */
  lemma ToggleUnsetStatus(r: Reference)
    requires r.status.None?
    ensures ToggleStatus(r).status == Some(Finished)
    ensures ToggleStatus(ToggleStatus(r)).status == Some(NotFinished)
  {
  }

  /** What a menu item hands to the page. */
  datatype MenuItem = ToggleStatusItem | DeleteItem
  datatype CardEvent = UpdateRequested(reference: Reference) | DeleteRequested(id: string)

  function Choose(item: MenuItem, r: Reference): (e: CardEvent)
    ensures item == DeleteItem ==> e == DeleteRequested(r.id)
    ensures item == ToggleStatusItem ==> e.UpdateRequested? && e.reference.id == r.id
                                         && e.reference == ToggleStatus(r)
  {
    match item
    case ToggleStatusItem => UpdateRequested(ToggleStatus(r))
    case DeleteItem => DeleteRequested(r.id)
  }

  /** The tags on the card: the first three in the list view, all of them
      in the grid view. */
  function ShownTags(tags: seq<string>, mode: ViewMode): (shown: seq<string>)
    ensures shown <= tags
    ensures mode == Grid ==> shown == tags
    ensures mode == List ==> |shown| == Min(3, |tags|)
  {
    if mode == List && |tags| > 3 then tags[..3] else tags
  }

  /** The star row is shown only for a positive priority. */
  predicate ShowsRating(r: Reference) {
    r.priority > 0
  }

  /** A shown star row fills exactly as many of its five stars as the
      reference's priority. */
  lemma RatingShowsPriority(r: Reference)
    requires ValidPriority(r.priority) && ShowsRating(r)
    ensures FilledCount(DefaultTotalStars, 0, r.priority) == r.priority
  {
  }
}
