/** The list helpers of the main page: the tag cloud, the tag and selection
    toggles, select-all, and the page title. */
module Page {
  import opened Wrappers
  import opened Types
  import FilteredReferences

  predicate NoDuplicates<T(==)>(s: seq<T>) {
    forall i, j :: 0 <= i < j < |s| ==> s[i] != s[j]
  }

  // ------------------------------------------------------------ allTags

  /** `Set.add` on an insertion-ordered set, for each element of `ts` in turn. */
  function AddAll(acc: seq<string>, ts: seq<string>): seq<string>
    decreases |ts|
  {
    if ts == [] then acc
    else AddAll(if ts[0] in acc then acc else acc + [ts[0]], ts[1..])
  }

  /** The insertion-ordered tag set after visiting `rs` in order. */
  function CollectTags(acc: seq<string>, rs: seq<Reference>): seq<string>
    decreases |rs|
  {
    if rs == [] then acc else CollectTags(AddAll(acc, rs[0].tags), rs[1..])
  }

  /** Adding to a set keeps it free of duplicates, and adds exactly the new
      elements. */
  lemma {:induction false} AddAllSet(acc: seq<string>, ts: seq<string>)
    requires NoDuplicates(acc)
    ensures NoDuplicates(AddAll(acc, ts))
    ensures forall t :: t in AddAll(acc, ts) <==> t in acc || t in ts
    decreases |ts|
  {
    if ts != [] {
      var next := if ts[0] in acc then acc else acc + [ts[0]];
      AddAllSet(next, ts[1..]);
      assert forall t :: t in ts <==> t == ts[0] || t in ts[1..];
    }
  }

  lemma {:induction false} CollectTagsSet(acc: seq<string>, rs: seq<Reference>)
    requires NoDuplicates(acc)
    ensures NoDuplicates(CollectTags(acc, rs))
    ensures forall t :: t in CollectTags(acc, rs) <==>
      t in acc || exists k :: 0 <= k < |rs| && t in rs[k].tags
    decreases |rs|
  {
    if rs != [] {
      AddAllSet(acc, rs[0].tags);
      CollectTagsSet(AddAll(acc, rs[0].tags), rs[1..]);
      forall t ensures (exists k :: 0 <= k < |rs| && t in rs[k].tags) <==>
                       t in rs[0].tags || exists k :: 0 <= k < |rs[1..]| && t in rs[1..][k].tags
      {
        if exists k :: 0 <= k < |rs| && t in rs[k].tags {
          var k :| 0 <= k < |rs| && t in rs[k].tags;
          if k > 0 {
            assert t in rs[1..][k - 1].tags;
          }
        }
      }
    }
  }

  /** `allTags`: every tag of every reference, each exactly once, in order
      of first appearance; no references gives no tags. */
  method AllTags(refs: Option<seq<Reference>>) returns (tags: seq<string>)
    ensures refs.None? ==> tags == []
    ensures refs.Some? ==> tags == CollectTags([], refs.value)
    ensures NoDuplicates(tags)
    ensures forall t :: t in tags <==>
      refs.Some? && exists k :: 0 <= k < |refs.value| && t in refs.value[k].tags
  {
    if refs.None? {
      return [];
    }
    var rs := refs.value;
    tags := [];
    var i := 0;
    while i < |rs|
      invariant 0 <= i <= |rs|
      invariant CollectTags(tags, rs[i..]) == CollectTags([], rs)
    {
      var ts := rs[i].tags;
      ghost var before := tags;
      var j := 0;
      while j < |ts|
        invariant 0 <= j <= |ts|
        invariant AddAll(tags, ts[j..]) == AddAll(before, ts)
      {
        if ts[j] !in tags {
          tags := tags + [ts[j]];
        }
        j := j + 1;
      }
      assert rs[i..][1..] == rs[i + 1..];
      i := i + 1;
    }
    CollectTagsSet([], rs);
  }

  // ------------------------------------------------------------- toggle

  /** `prev.filter(t => t !== x)` */
  function RemoveAll(prev: seq<string>, x: string): (r: seq<string>)
    ensures x !in r
    ensures forall y :: y != x ==> (y in r <==> y in prev)
    ensures multiset(r) == multiset(prev)[x := 0]
  {
    if prev == [] then []
    else
      assert prev == [prev[0]] + prev[1..];
      (if prev[0] == x then [] else [prev[0]]) + RemoveAll(prev[1..], x)
  }

  /** `filter` keeps the remaining elements in their order. */
  lemma {:induction false} RemoveAllIsSubsequence(prev: seq<string>, x: string)
    ensures FilteredReferences.IsSubsequence(RemoveAll(prev, x), prev)
  {
    if prev != [] {
      RemoveAllIsSubsequence(prev[1..], x);
      var out := RemoveAll(prev, x);
      if prev[0] != x {
        assert out[0] == prev[0] && out[1..] == RemoveAll(prev[1..], x);
      } else {
        assert out == RemoveAll(prev[1..], x);
        if out != [] {
          assert FilteredReferences.IsSubsequence(out, prev[1..]);
        }
      }
    }
  }

  /** `toggleTag` and `toggleReferenceSelection`: remove every copy of a
      present element, append an absent one. */
  function Toggle(prev: seq<string>, x: string): (r: seq<string>)
    ensures x in prev ==> x !in r && forall y :: y != x ==> (y in r <==> y in prev)
    ensures x !in prev ==> r == prev + [x]
  {
    if x in prev then RemoveAll(prev, x) else prev + [x]
  }

  /** Toggling the same element twice restores membership of every
      element; from an absent element it restores the list itself. */
  lemma ToggleTwice(prev: seq<string>, x: string)
    ensures forall y :: y in Toggle(Toggle(prev, x), x) <==> y in prev
    ensures x !in prev ==> Toggle(Toggle(prev, x), x) == prev
  {
    if x !in prev {
      var once := prev + [x];
      assert RemoveAll(once, x) == prev by {
        RemoveAppended(prev, x);
      }
    }
  }

  lemma {:induction false} RemoveAppended(prev: seq<string>, x: string)
    requires x !in prev
    ensures RemoveAll(prev + [x], x) == prev
  {
    if prev == [] {
      assert [x][1..] == [];
    } else {
      assert (prev + [x])[1..] == prev[1..] + [x];
      RemoveAppended(prev[1..], x);
      assert [prev[0]] + prev[1..] == prev;
    }
  }

  /** Toggling keeps a duplicate-free list duplicate-free. */
  lemma ToggleNoDuplicates(prev: seq<string>, x: string)
    requires NoDuplicates(prev)
    ensures NoDuplicates(Toggle(prev, x))
  {
    if x in prev {
      RemoveAllNoDuplicates(prev, x);
    }
  }

  lemma {:induction false} RemoveAllNoDuplicates(prev: seq<string>, x: string)
    requires NoDuplicates(prev)
    ensures NoDuplicates(RemoveAll(prev, x))
  {
    if prev != [] {
      RemoveAllNoDuplicates(prev[1..], x);
      var rest := RemoveAll(prev[1..], x);
      if prev[0] != x {
        assert prev[0] !in prev[1..];
        assert prev[0] !in rest;
      }
    }
  }

  // --------------------------------------------------------- select all

  /** `handleSelectAll`: the ids of the shown references, in order, or no
      selection at all. */
  function SelectAll(filtered: seq<Reference>, selectAll: bool): (r: seq<string>)
    ensures !selectAll ==> r == []
    ensures selectAll ==> |r| == |filtered| && forall k :: 0 <= k < |filtered| ==> r[k] == filtered[k].id
  {
    if selectAll then seq(|filtered|, k requires 0 <= k < |filtered| => filtered[k].id) else []
  }

  /** Selecting all then unselecting one shown reference leaves every other
      shown id selected. */
  lemma SelectAllThenToggle(filtered: seq<Reference>, id: string)
    requires exists k :: 0 <= k < |filtered| && filtered[k].id == id
    ensures id !in Toggle(SelectAll(filtered, true), id)
    ensures forall k :: 0 <= k < |filtered| && filtered[k].id != id ==>
      filtered[k].id in Toggle(SelectAll(filtered, true), id)
  {
    var all := SelectAll(filtered, true);
    var k :| 0 <= k < |filtered| && filtered[k].id == id;
    assert all[k] == id;
    forall j | 0 <= j < |filtered| && filtered[j].id != id
      ensures filtered[j].id in Toggle(all, id)
    {
      assert all[j] == filtered[j].id;
    }
  }

  // -------------------------------------------------------------- title

  /** The page title: the name of the active project, else "All References". */
  function PageTitle(projects: seq<Project>, activeProjectId: Option<string>): (r: string)
    ensures activeProjectId.None? ==> r == "All References"
    ensures activeProjectId.Some? && (forall k :: 0 <= k < |projects| ==> projects[k].id != activeProjectId.value)
            ==> r == "All References"
    ensures activeProjectId.Some? ==> forall k ::
              (0 <= k < |projects| && projects[k].id == activeProjectId.value
               && forall j :: 0 <= j < k ==> projects[j].id != activeProjectId.value) ==> r == projects[k].name
  {
    if activeProjectId.None? then "All References"
    else
      match FindProject(projects, activeProjectId.value)
      case Some(p) => FirstMatchUnique(projects, activeProjectId.value, p); p.name
      case None => "All References"
  }

  /** Only one index is the first with a given id. */
  lemma FirstMatchUnique(projects: seq<Project>, id: string, p: Project)
    requires FindProject(projects, id) == Some(p)
    ensures forall k ::
              (0 <= k < |projects| && projects[k].id == id
               && forall j :: 0 <= j < k ==> projects[j].id != id) ==> projects[k] == p
  {
    var i :| 0 <= i < |projects| && projects[i] == p && forall j :: 0 <= j < i ==> projects[j].id != id;
    forall k | 0 <= k < |projects| && projects[k].id == id && (forall j :: 0 <= j < k ==> projects[j].id != id)
      ensures projects[k] == p
    {
      assert !(k < i) && !(i < k);
    }
  }
}
