/** The add/edit reference dialog: its validation schema, the values the
    form starts from, and how a submitted form becomes a reference. */
module ReferenceForm {
  import opened Wrappers
  import opened Strings
  import opened Types

  /** The form's fields. Authors and tags are edited as one comma-separated
      string each; `tags` may be absent. */
  datatype FormValues = FormValues(
    title: string,
    authors: string,
    year: int,
    journal: string,
    doi: string,
    abstractText: string,
    tags: Option<string>,
    priority: int,
    projectId: string,
    status: Option<Status>)

  /** The validation schema; `currentYear` is the clock's year. */
  predicate Valid(v: FormValues, currentYear: int) {
    && |v.title| >= 3
    && |v.authors| >= 1
    && 1800 <= v.year <= currentYear + 1
    && |v.abstractText| >= 10
    && 0 <= v.priority <= 5
    && |v.projectId| >= 1
    && v.status.Some?
  }

  /** The values the form is reset to: those of the reference being edited,
      or an empty form for a new one. */
  function DefaultValues(toEdit: Option<Reference>, currentYear: int): (v: FormValues)
    ensures toEdit.None? ==> v.priority == 0 && v.status == Some(NotFinished) && v.projectId == ""
                             && v.year == currentYear && v.title == "" && v.tags == Some("")
    ensures toEdit.Some? ==> v.authors == Join(toEdit.value.authors, ", ")
                             && v.tags == Some(Join(toEdit.value.tags, ", "))
  {
    match toEdit
    case Some(r) =>
      FormValues(r.title, Join(r.authors, ", "), r.year, r.journal.GetOr(""), r.doi.GetOr(""),
                 r.abstractText, Some(Join(r.tags, ", ")), r.priority, r.projectId, r.status)
    case None =>
      FormValues("", "", currentYear, "", "", "", Some(""), 0, "", Some(NotFinished))
  }

  /** What the dialog hands to the add callback: a reference without id and
      creation time (and without notes, which the form does not edit). */
  datatype NewReference = NewReference(
    title: string,
    authors: seq<string>,
    year: int,
    journal: Option<string>,
    doi: Option<string>,
    abstractText: string,
    tags: seq<string>,
    priority: int,
    projectId: string,
    status: Option<Status>)

  /** Authors are split on "," and each piece trimmed; there is always at
      least one piece. */
  function ParseAuthors(authors: string): (r: seq<string>)
    ensures |r| >= 1
    ensures |r| == |Split(authors, ',')|
    ensures forall k :: 0 <= k < |r| ==> r[k] == Trim(Split(authors, ',')[k])
  {
    SplitTrim(authors)
  }

  /** An empty or absent tag string gives no tags; otherwise tags are split
      on "," and trimmed. */
  function ParseTags(tags: Option<string>): (r: seq<string>)
    ensures !Truthy(tags) ==> r == []
    ensures Truthy(tags) ==> |r| == |Split(tags.value, ',')|
                             && forall k :: 0 <= k < |r| ==> r[k] == Trim(Split(tags.value, ',')[k])
  {
    if Truthy(tags) then SplitTrim(tags.value) else []
  }

  /** The processed form data. */
  function Processed(v: FormValues): NewReference {
    NewReference(v.title, ParseAuthors(v.authors), v.year, Some(v.journal), Some(v.doi), v.abstractText,
                 ParseTags(v.tags), v.priority, v.projectId, v.status)
  }

  /** `{ ...referenceToEdit, ...processedData }`: every form field replaces
      the old one; id, creation time and notes are kept. */
  function MergeEdit(edited: Reference, p: NewReference): (r: Reference)
    ensures r.id == edited.id && r.createdAt == edited.createdAt && r.notes == edited.notes
    ensures r.title == p.title && r.authors == p.authors && r.year == p.year
    ensures r.journal == p.journal && r.doi == p.doi && r.abstractText == p.abstractText
    ensures r.tags == p.tags && r.priority == p.priority && r.projectId == p.projectId
    ensures r.status == p.status
  {
    edited.(title := p.title, authors := p.authors, year := p.year, journal := p.journal,
          doi := p.doi, abstractText := p.abstractText, tags := p.tags, priority := p.priority,
          projectId := p.projectId, status := p.status)
  }

  datatype SubmitOutcome =
    | Rejected               // the schema refused the values; the dialog stays open
    | Updated(ref: Reference) // the update callback was called
    | Added(data: NewReference) // the add callback was called
    | NoCallback              // neither callback applies; the dialog just closes

  /** Submitting the form: an invalid form is refused; an edit with an update
      callback merges onto the edited reference; otherwise the add callback
      (when present) receives the processed data. */
  function Submit(v: FormValues, currentYear: int, toEdit: Option<Reference>,
                  hasUpdate: bool, hasAdd: bool): (o: SubmitOutcome)
    ensures o.Rejected? <==> !Valid(v, currentYear)
    ensures o.Updated? ==> toEdit.Some? && o.ref.id == toEdit.value.id
                           && o.ref.createdAt == toEdit.value.createdAt && o.ref.notes == toEdit.value.notes
    ensures o.Added? ==> hasAdd && o.data == Processed(v)
    ensures Valid(v, currentYear) && toEdit.Some? && hasUpdate ==>
              o == Updated(MergeEdit(toEdit.value, Processed(v)))
    ensures Valid(v, currentYear) && !(toEdit.Some? && hasUpdate) && hasAdd ==> o == Added(Processed(v))
    ensures Valid(v, currentYear) && !(toEdit.Some? && hasUpdate) && !hasAdd ==> o == NoCallback
  {
    if !Valid(v, currentYear) then Rejected
    else if toEdit.Some? && hasUpdate then Updated(MergeEdit(toEdit.value, Processed(v)))
    else if hasAdd then Added(Processed(v))
    else NoCallback
  }

  /** A tag list that survives the form: items without commas or
      surrounding blanks, and not the single empty tag. */
  predicate TagsSurviveForm(tags: seq<string>) {
    (forall k :: 0 <= k < |tags| ==> ListItemSafe(tags[k])) && tags != [""]
  }

  /** Author lists of safe items survive being shown joined with ", " and
      submitted again. */
  lemma AuthorsRoundTrip(authors: seq<string>)
    requires |authors| >= 1 && forall k :: 0 <= k < |authors| ==> ListItemSafe(authors[k])
    ensures ParseAuthors(Join(authors, ", ")) == authors
  {
    SplitTrimJoin(authors);
  }

  /** Tag lists of safe items survive being shown joined with ", " and
      submitted again. */
  lemma TagsRoundTrip(tags: seq<string>)
    requires TagsSurviveForm(tags)
    ensures ParseTags(Some(Join(tags, ", "))) == tags
  {
    if |tags| == 0 {
    } else {
      SplitTrimJoin(tags);
      if |tags| == 1 {
        assert Join(tags, ", ") == tags[0];
      } else {
        assert |Join(tags, ", ")| >= 2;
      }
    }
  }

  /** Opening a reference for editing and submitting the untouched form
      gives the same reference back, when its author and tag lists survive
      the comma round trip and its journal and DOI are present. */
  lemma EditUnchangedRoundTrip(r: Reference, currentYear: int)
    requires |r.authors| >= 1 && forall k :: 0 <= k < |r.authors| ==> ListItemSafe(r.authors[k])
    requires TagsSurviveForm(r.tags)
    requires r.journal.Some? && r.doi.Some?
    ensures Processed(DefaultValues(Some(r), currentYear)) ==
            NewReference(r.title, r.authors, r.year, r.journal, r.doi, r.abstractText,
                         r.tags, r.priority, r.projectId, r.status)
    ensures MergeEdit(r, Processed(DefaultValues(Some(r), currentYear))) == r
  {
    AuthorsRoundTrip(r.authors);
    TagsRoundTrip(r.tags);
  }

  /** Every reference added or updated through the form has at least one
      author, as the BibTeX export requires. */
  lemma SubmittedReferenceHasAuthor(v: FormValues, currentYear: int, toEdit: Option<Reference>,
                                    hasUpdate: bool, hasAdd: bool)
    ensures Submit(v, currentYear, toEdit, hasUpdate, hasAdd).Updated? ==>
              |Submit(v, currentYear, toEdit, hasUpdate, hasAdd).ref.authors| >= 1
    ensures Submit(v, currentYear, toEdit, hasUpdate, hasAdd).Added? ==>
              |Submit(v, currentYear, toEdit, hasUpdate, hasAdd).data.authors| >= 1
  {
  }

  /** The empty form of a new reference cannot be submitted as it is. */
  lemma NewFormRejected(currentYear: int, hasUpdate: bool, hasAdd: bool)
    ensures Submit(DefaultValues(None, currentYear), currentYear, None, hasUpdate, hasAdd) == Rejected
  {
  }
}
