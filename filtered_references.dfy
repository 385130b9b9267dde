/** The filter behind the reference list: a reference is shown when it
    passes the project, priority, tag and search tests together. The filter
    keeps the input order and never re-sorts or duplicates. */
module FilteredReferences {
  import opened Wrappers
  import opened Strings
  import opened Types

  /** The filter inputs the page holds. */
  datatype Criteria = Criteria(
    activeProjectId: Option<string>,
    activePriority: Option<int>,
    activeTags: seq<string>,
    searchTerm: string)

  /** `!activeProjectId || ref.projectId === activeProjectId` */
  predicate ProjectMatch(r: Reference, c: Criteria) {
    !Truthy(c.activeProjectId) || r.projectId == c.activeProjectId.value
  }

  /** `!activePriority || ref.priority === activePriority`: null and 0 both
      switch the test off. */
  predicate PriorityMatch(r: Reference, c: Criteria) {
    c.activePriority.None? || c.activePriority.value == 0 || r.priority == c.activePriority.value
  }

  /** Every active tag is among the reference's tags. */
  predicate TagMatch(r: Reference, c: Criteria) {
    |c.activeTags| == 0 || forall k :: 0 <= k < |c.activeTags| ==> c.activeTags[k] in r.tags
  }

  /** `s.toLowerCase().includes(term.toLowerCase())` */
  predicate IncludesIgnoringCase(s: string, term: string) {
    Contains(ToLower(s), ToLower(term))
  }

  predicate AnyAuthorIncludes(authors: seq<string>, term: string) {
    exists k :: 0 <= k < |authors| && IncludesIgnoringCase(authors[k], term)
  }

  predicate SearchMatch(r: Reference, c: Criteria) {
    c.searchTerm == ""
    || IncludesIgnoringCase(r.title, c.searchTerm)
    || AnyAuthorIncludes(r.authors, c.searchTerm)
    || IncludesIgnoringCase(r.abstractText, c.searchTerm)
  }

  predicate Keep(r: Reference, c: Criteria) {
    ProjectMatch(r, c) && PriorityMatch(r, c) && TagMatch(r, c) && SearchMatch(r, c)
  }

  /** `references.filter(...)`: exactly the references that pass every
      test, each as often as in the input. */
  function Filter(refs: seq<Reference>, c: Criteria): (out: seq<Reference>)
    ensures |out| <= |refs|
    ensures forall r :: r in out <==> r in refs && Keep(r, c)
    ensures multiset(out) <= multiset(refs)
    ensures forall r :: multiset(out)[r] == if Keep(r, c) then multiset(refs)[r] else 0
  {
    if refs == [] then []
    else
      assert refs == [refs[0]] + refs[1..];
      (if Keep(refs[0], c) then [refs[0]] else []) + Filter(refs[1..], c)
  }

  /** The memoised hook: an absent reference list yields no references. */
  function UseFilteredReferences(refs: Option<seq<Reference>>, c: Criteria): (out: seq<Reference>)
    ensures refs.None? ==> out == []
    ensures refs.Some? ==> forall r :: r in out <==> r in refs.value && Keep(r, c)
  {
    match refs
    case None => []
    case Some(rs) => Filter(rs, c)
  }

  // ------------------------------------------------------------- order

  /** `a` is obtained from `b` by deleting elements, keeping the order. */
  ghost predicate IsSubsequence<T>(a: seq<T>, b: seq<T>)
    decreases |b|
  {
    if a == [] then true
    else if b == [] then false
    else (a[0] == b[0] && IsSubsequence(a[1..], b[1..])) || IsSubsequence(a, b[1..])
  }

  lemma {:induction false} FilterIsSubsequence(refs: seq<Reference>, c: Criteria)
    ensures IsSubsequence(Filter(refs, c), refs)
  {
    if refs != [] {
      FilterIsSubsequence(refs[1..], c);
      var out := Filter(refs, c);
      if Keep(refs[0], c) {
        assert out[0] == refs[0] && out[1..] == Filter(refs[1..], c);
      } else {
        assert out == Filter(refs[1..], c);
        if out != [] {
          assert IsSubsequence(out, refs[1..]);
        }
      }
    }
  }

  /** Filtering with no project, no priority, no tags and an empty search
      returns the input unchanged. */
  lemma {:induction false} FilterWithoutCriteria(refs: seq<Reference>, c: Criteria)
    requires !Truthy(c.activeProjectId)
    requires c.activePriority.None? || c.activePriority == Some(0)
    requires c.activeTags == [] && c.searchTerm == ""
    ensures Filter(refs, c) == refs
  {
    if refs != [] {
      FilterWithoutCriteria(refs[1..], c);
      assert Keep(refs[0], c);
      assert Filter(refs, c) == [refs[0]] + Filter(refs[1..], c);
      assert [refs[0]] + refs[1..] == refs;
    }
  }

  /** Two criteria that keep the same references of `refs` filter them
      identically. */
  lemma {:induction false} FilterAgrees(refs: seq<Reference>, c1: Criteria, c2: Criteria)
    requires forall k :: 0 <= k < |refs| ==> (Keep(refs[k], c1) <==> Keep(refs[k], c2))
    ensures Filter(refs, c1) == Filter(refs, c2)
  {
    if refs != [] {
      FilterAgrees(refs[1..], c1, c2);
    }
  }

  /** Filtering first by looser criteria changes nothing: when `c2` keeps
      only references `c1` keeps, filtering by `c1` and then by `c2` is
      filtering by `c2`. */
  lemma {:induction false} FilterAbsorbs(refs: seq<Reference>, c1: Criteria, c2: Criteria)
    requires forall k :: 0 <= k < |refs| ==> Keep(refs[k], c2) ==> Keep(refs[k], c1)
    ensures Filter(Filter(refs, c1), c2) == Filter(refs, c2)
  {
    if refs != [] {
      FilterAbsorbs(refs[1..], c1, c2);
      var once := Filter(refs, c1);
      if Keep(refs[0], c1) {
        assert once == [refs[0]] + Filter(refs[1..], c1);
        assert once[0] == refs[0] && once[1..] == Filter(refs[1..], c1);
        assert Filter(once, c2) == (if Keep(refs[0], c2) then [refs[0]] else []) + Filter(once[1..], c2);
      } else {
        assert once == Filter(refs[1..], c1);
      }
    }
  }

  /** Re-filtering a filtered list with the same criteria returns it
      unchanged. */
  lemma FilterIdempotent(refs: seq<Reference>, c: Criteria)
    ensures Filter(Filter(refs, c), c) == Filter(refs, c)
  {
    FilterAbsorbs(refs, c, c);
  }

  // -------------------------------------------------------------- tags

  /** Tags combine with AND: every reference kept carries every active
      tag. */
  lemma FilterHasAllTags(refs: seq<Reference>, c: Criteria, r: Reference, t: string)
    requires r in Filter(refs, c) && t in c.activeTags
    ensures t in r.tags
  {
  }

  /** Activating one more tag can only shrink the result: the smaller result
      is the larger one filtered again. */
  lemma FilterMoreTags(refs: seq<Reference>, c: Criteria, t: string)
    ensures Filter(Filter(refs, c), c.(activeTags := c.activeTags + [t]))
            == Filter(refs, c.(activeTags := c.activeTags + [t]))
    ensures |Filter(refs, c.(activeTags := c.activeTags + [t]))| <= |Filter(refs, c)|
  {
    var c2 := c.(activeTags := c.activeTags + [t]);
    forall k | 0 <= k < |refs| && Keep(refs[k], c2) ensures Keep(refs[k], c) {
      forall j | 0 <= j < |c.activeTags| ensures c.activeTags[j] in refs[k].tags {
        assert c2.activeTags[j] == c.activeTags[j];
      }
    }
    FilterAbsorbs(refs, c, c2);
  }

  // ---------------------------------------------------------- priority

  /** A non-zero active priority is an exact match. */
  lemma FilterPriorityExact(refs: seq<Reference>, c: Criteria, r: Reference)
    requires c.activePriority.Some? && c.activePriority.value != 0
    requires r in Filter(refs, c)
    ensures r.priority == c.activePriority.value
  {
  }

  /** A priority of 0 filters exactly like no priority at all. */
  lemma FilterPriorityZero(refs: seq<Reference>, c: Criteria)
    ensures Filter(refs, c.(activePriority := Some(0))) == Filter(refs, c.(activePriority := None))
  {
    FilterAgrees(refs, c.(activePriority := Some(0)), c.(activePriority := None));
  }

  // ------------------------------------------------------------ search

  /** Search terms that differ only in letter case give the same result. */
  lemma FilterSearchIgnoresCase(refs: seq<Reference>, c: Criteria, term: string)
    requires ToLower(term) == ToLower(c.searchTerm)
    ensures Filter(refs, c.(searchTerm := term)) == Filter(refs, c)
  {
    assert |term| == |ToLower(term)|;
    assert term == "" <==> c.searchTerm == "";
    FilterAgrees(refs, c.(searchTerm := term), c);
  }

  /** A term found in an author's name (in any letter case) makes the
      search test pass. */
  lemma SearchHitsAuthor(r: Reference, c: Criteria, k: nat, i: nat)
    requires k < |r.authors|
    requires i + |c.searchTerm| <= |r.authors[k]|
    requires ToLower(r.authors[k])[i..i + |c.searchTerm|] == ToLower(c.searchTerm)
    ensures SearchMatch(r, c)
  {
    ContainsAt(ToLower(r.authors[k]), ToLower(c.searchTerm), i);
  }

  /** "Deep Learning" is found by "deep" and by "LEARNING". */
  lemma SearchExample(r: Reference)
    requires r.title == "Deep Learning"
    ensures SearchMatch(r, Criteria(None, None, [], "deep"))
    ensures SearchMatch(r, Criteria(None, None, [], "LEARNING"))
  {
    assert ToLower("deep") == "deep";
    assert ToLower("Deep Learning")[0..4] == "deep";
    ContainsAt(ToLower(r.title), ToLower("deep"), 0);
    assert ToLower("LEARNING") == "learning";
    assert ToLower("Deep Learning")[5..13] == "learning";
    ContainsAt(ToLower(r.title), ToLower("LEARNING"), 5);
  }
}
