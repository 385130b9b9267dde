/** The BibTeX export: one `@article` entry per reference, in input order,
    each opened by a citation key derived from the first author, the year
    and the first word of the title. */
module BibTeX {
  import opened Wrappers
  import opened Strings
  import opened Types

  /** Every reference of the export has a first author to take the key from. */
  predicate Exportable(refs: seq<Reference>) {
    forall k :: 0 <= k < |refs| ==> |refs[k].authors| >= 1
  }

  /** The citation key: the last space-separated word of the first author,
      the year, and the letters of the first word of the title. */
  function CitationKey(r: Reference): string
    requires |r.authors| >= 1
  {
    LastWord(r.authors[0]) + IntToString(r.year) + LettersOnly(FirstWord(r.title))
  }

  /** The opening line of an entry. */
  function Header(key: string): string {
    "@article{" + key + ",\n"
  }

  /** One `name = {value},` line. */
  function Field(name: string, value: string): string {
    "  " + name + " = {" + value + "},\n"
  }

  /** The line of an optional field: present only for a non-empty value. */
  function OptionalField(name: string, value: Option<string>): seq<string> {
    if Truthy(value) then [Field(name, value.value)] else []
  }

  const Closing: string := "}\n\n"

  /** The lines of an entry, in the order they are written. */
  function EntryLines(r: Reference): seq<string>
    requires |r.authors| >= 1
  {
    [Header(CitationKey(r)),
     Field("title", r.title),
     Field("author", Join(r.authors, " and ")),
     Field("year", IntToString(r.year))]
    + OptionalField("journal", r.journal)
    + OptionalField("doi", r.doi)
    + OptionalField("abstract", Some(r.abstractText))
    + [Closing]
  }

  function Concat(xs: seq<string>): string {
    if xs == [] then "" else xs[0] + Concat(xs[1..])
  }

  function Entry(r: Reference): string
    requires |r.authors| >= 1
  {
    Concat(EntryLines(r))
  }

  /** The whole export: the entries of the references, one after another. */
  function Export(refs: seq<Reference>): string
    requires Exportable(refs)
  {
    if refs == [] then "" else Entry(refs[0]) + Export(refs[1..])
  }

  lemma ConcatSnoc(xs: seq<string>, x: string)
    ensures Concat(xs + [x]) == Concat(xs) + x
  {
    ConcatAppend(xs, [x]);
    ConcatSingle(x);
  }

  lemma {:induction false} ConcatAppend(xs: seq<string>, ys: seq<string>)
    ensures Concat(xs + ys) == Concat(xs) + Concat(ys)
  {
    if xs == [] {
      assert xs + ys == ys;
    } else {
      assert (xs + ys)[1..] == xs[1..] + ys;
      ConcatAppend(xs[1..], ys);
    }
  }

  /** The text of an optional field line: empty for an empty value. */
  function OptionalText(name: string, value: Option<string>): string {
    if Truthy(value) then Field(name, value.value) else ""
  }

  lemma ConcatSingle(x: string)
    ensures Concat([x]) == x
  {
    assert [x][1..] == [];
  }

  /** An entry is its lines written one after another. */
  lemma EntryText(r: Reference)
    requires |r.authors| >= 1
    ensures Entry(r) == Header(CitationKey(r)) + Field("title", r.title)
                        + Field("author", Join(r.authors, " and ")) + Field("year", IntToString(r.year))
                        + OptionalText("journal", r.journal) + OptionalText("doi", r.doi)
                        + OptionalText("abstract", Some(r.abstractText)) + Closing
  {
    var required := [Header(CitationKey(r)), Field("title", r.title),
                     Field("author", Join(r.authors, " and ")), Field("year", IntToString(r.year))];
    var j := OptionalField("journal", r.journal);
    var d := OptionalField("doi", r.doi);
    var a := OptionalField("abstract", Some(r.abstractText));
    assert EntryLines(r) == required + j + d + a + [Closing];
    ConcatAppend(required + j + d + a, [Closing]);
    ConcatAppend(required + j + d, a);
    ConcatAppend(required + j, d);
    ConcatAppend(required, j);
    ConcatSingle(Closing);
    if Truthy(r.journal) { ConcatSingle(Field("journal", r.journal.value)); }
    if Truthy(r.doi) { ConcatSingle(Field("doi", r.doi.value)); }
    if r.abstractText != "" { ConcatSingle(Field("abstract", r.abstractText)); }
    var h, t, au, y := required[0], required[1], required[2], required[3];
    ConcatSingle(h);
    ConcatSnoc([h], t);
    assert [h] + [t] == [h, t];
    ConcatSnoc([h, t], au);
    assert [h, t] + [au] == [h, t, au];
    ConcatSnoc([h, t, au], y);
    assert [h, t, au] + [y] == required;
  }

  /** One entry of `toBibTeX`, assembled line by line. */
  method BuildEntry(r: Reference) returns (entry: string)
    requires |r.authors| >= 1
    ensures entry == Entry(r)
  {
    var key := LastWord(r.authors[0]) + IntToString(r.year) + LettersOnly(FirstWord(r.title));
    entry := Header(key);
    entry := entry + Field("title", r.title);
    entry := entry + Field("author", Join(r.authors, " and "));
    entry := entry + Field("year", IntToString(r.year));
    ghost var required := entry;
    if r.journal.Some? && r.journal.value != "" {
      entry := entry + Field("journal", r.journal.value);
    }
    ghost var withJournal := entry;
    assert withJournal == required + OptionalText("journal", r.journal);
    if r.doi.Some? && r.doi.value != "" {
      entry := entry + Field("doi", r.doi.value);
    }
    ghost var withDoi := entry;
    assert withDoi == withJournal + OptionalText("doi", r.doi);
    if r.abstractText != "" {
      entry := entry + Field("abstract", r.abstractText);
    }
    assert entry == withDoi + OptionalText("abstract", Some(r.abstractText));
    entry := entry + Closing;
    EntryText(r);
  }

  /** `toBibTeX`: the loop appends one entry per reference. */
  method ToBibTeX(refs: seq<Reference>) returns (s: string)
    requires Exportable(refs)
    ensures s == Export(refs)
  {
    s := "";
    var i := 0;
    while i < |refs|
      invariant 0 <= i <= |refs|
      invariant s + Export(refs[i..]) == Export(refs)
    {
      var entry := BuildEntry(refs[i]);
      assert refs[i..][1..] == refs[i + 1..];
      s := s + entry;
      i := i + 1;
    }
    assert refs[|refs|..] == [];
  }

  // ------------------------------------------------------------ whole export

  /** Exporting two lists one after the other is exporting their
      concatenation: entries are independent and keep the input order. */
  lemma {:induction false} ExportAppend(a: seq<Reference>, b: seq<Reference>)
    requires Exportable(a) && Exportable(b)
    ensures Exportable(a + b)
    ensures Export(a + b) == Export(a) + Export(b)
  {
    ExportableAppend(a, b);
    if a == [] {
      assert a + b == b;
    } else {
      var rest := a[1..];
      assert (a + b)[1..] == rest + b;
      ExportAppend(rest, b);
      AppendAssoc(Entry(a[0]), Export(rest), Export(b));
    }
  }

  lemma ExportableAppend(a: seq<Reference>, b: seq<Reference>)
    requires Exportable(a) && Exportable(b)
    ensures Exportable(a + b)
  {
  }

  lemma AppendAssoc(x: string, y: string, z: string)
    ensures x + (y + z) == (x + y) + z
  {
  }

  /** No references give the empty text; one reference gives its entry. */
  lemma ExportSmall(r: Reference)
    requires |r.authors| >= 1
    ensures Export([]) == ""
    ensures Export([r]) == Entry(r)
  {
    assert [r][1..] == [];
  }

  // ----------------------------------------------------------------- entries

  lemma {:induction false} ConcatPrefix(xs: seq<string>)
    requires xs != []
    ensures |xs[0]| <= |Concat(xs)| && Concat(xs)[..|xs[0]|] == xs[0]
  {
  }

  /** Every entry opens with `@article{key,` and ends with a closing brace and
      a blank line. */
  lemma EntryFraming(r: Reference)
    requires |r.authors| >= 1
    ensures |Header(CitationKey(r))| + |Closing| <= |Entry(r)|
    ensures Entry(r)[..|Header(CitationKey(r))|] == Header(CitationKey(r))
    ensures Entry(r)[|Entry(r)| - |Closing|..] == Closing
  {
    var lines := EntryLines(r);
    ConcatPrefix(lines);
    var init := lines[..|lines| - 1];
    assert lines == init + [Closing];
    ConcatSnoc(init, Closing);
    assert init != [] && init[0] == lines[0];
    ConcatPrefix(init);
  }

  /** A field line carries its name at offset 2. */
  lemma FieldName(name: string, value: string)
    ensures |Field(name, value)| >= 2 + |name|
    ensures Field(name, value)[..2] == "  "
    ensures Field(name, value)[2..2 + |name|] == name
  {
  }

  /** Field lines whose names differ at some common position differ. */
  lemma FieldsDiffer(n1: string, v1: string, n2: string, v2: string, k: nat)
    requires k < |n1| && k < |n2| && n1[k] != n2[k]
    ensures Field(n1, v1) != Field(n2, v2)
  {
    FieldName(n1, v1);
    FieldName(n2, v2);
    assert Field(n1, v1)[2 + k] == n1[k];
    assert Field(n2, v2)[2 + k] == n2[k];
  }

  /** No other line of an entry is a field line of an optional field. */
  lemma NotAnOptionalLine(r: Reference, name: string, v: string)
    requires |r.authors| >= 1
    requires name in ["journal", "doi", "abstract"]
    ensures Field(name, v) != Header(CitationKey(r))
    ensures Field(name, v) != Field("title", r.title)
    ensures Field(name, v) != Field("author", Join(r.authors, " and "))
    ensures Field(name, v) != Field("year", IntToString(r.year))
    ensures Field(name, v) != Closing
  {
    FieldName(name, v);
    assert Header(CitationKey(r))[0] == '@';
    assert Closing[0] == '}';
    FieldsDiffer(name, v, "title", r.title, 0);
    if name == "abstract" {
      FieldsDiffer(name, v, "author", Join(r.authors, " and "), 1);
    } else {
      FieldsDiffer(name, v, "author", Join(r.authors, " and "), 0);
    }
    FieldsDiffer(name, v, "year", IntToString(r.year), 0);
  }

  /** The journal, DOI and abstract lines appear exactly when the field is
      non-empty, each with the field's own value. */
  lemma OptionalLines(r: Reference, v: string)
    requires |r.authors| >= 1
    ensures Field("journal", v) in EntryLines(r) <==> Truthy(r.journal) && v == r.journal.value
    ensures Field("doi", v) in EntryLines(r) <==> Truthy(r.doi) && v == r.doi.value
    ensures Field("abstract", v) in EntryLines(r) <==> r.abstractText != "" && v == r.abstractText
  {
    NotAnOptionalLine(r, "journal", v);
    NotAnOptionalLine(r, "doi", v);
    NotAnOptionalLine(r, "abstract", v);
    FieldsDiffer("journal", v, "doi", if r.doi.Some? then r.doi.value else "", 0);
    FieldsDiffer("journal", v, "abstract", r.abstractText, 0);
    FieldsDiffer("doi", v, "journal", if r.journal.Some? then r.journal.value else "", 0);
    FieldsDiffer("doi", v, "abstract", r.abstractText, 0);
    FieldsDiffer("abstract", v, "journal", if r.journal.Some? then r.journal.value else "", 0);
    FieldsDiffer("abstract", v, "doi", if r.doi.Some? then r.doi.value else "", 0);
    FieldInjective("journal", v, if r.journal.Some? then r.journal.value else "");
    FieldInjective("doi", v, if r.doi.Some? then r.doi.value else "");
    FieldInjective("abstract", v, r.abstractText);
  }

  /** A field line determines its value. */
  lemma FieldInjective(name: string, v1: string, v2: string)
    ensures Field(name, v1) == Field(name, v2) <==> v1 == v2
  {
    if Field(name, v1) == Field(name, v2) {
      var p := "  " + name + " = {";
      assert Field(name, v1) == p + (v1 + "},\n");
      assert Field(name, v2) == p + (v2 + "},\n");
      assert (p + (v1 + "},\n"))[|p|..] == v1 + "},\n";
      assert (p + (v2 + "},\n"))[|p|..] == v2 + "},\n";
      assert v1 + "},\n" == v2 + "},\n";
      assert v1 == (v1 + "},\n")[..|v1|];
    }
  }

  /** The title, author and year lines are always there, authors joined
      with " and ". */
  lemma RequiredLines(r: Reference)
    requires |r.authors| >= 1
    ensures EntryLines(r)[0] == Header(CitationKey(r))
    ensures EntryLines(r)[1] == Field("title", r.title)
    ensures EntryLines(r)[2] == Field("author", Join(r.authors, " and "))
    ensures EntryLines(r)[3] == Field("year", IntToString(r.year))
    ensures 5 <= |EntryLines(r)| <= 8
  {
  }

  // --------------------------------------------------------------------- key

  /** The key never contains a blank: each of its three parts is free of
      them. */
  lemma KeyHasNoBlank(r: Reference)
    requires |r.authors| >= 1
    ensures ' ' !in CitationKey(r)
  {
    var a := LastWord(r.authors[0]);
    var y := IntToString(r.year);
    var t := LettersOnly(FirstWord(r.title));
    assert ' ' !in y by {
      if r.year < 0 {
        NatToStringDigits(-r.year);
        assert y == "-" + NatToString(-r.year);
      } else {
        NatToStringDigits(r.year);
      }
    }
  }

  /** For a first author written "given-names surname" and a title whose
      first word is made of letters, the key is surname, year and that
      word. */
  lemma KeyOfPlainNames(r: Reference, given: string, surname: string, word: string, rest: string)
    requires |r.authors| >= 1 && r.authors[0] == given + " " + surname && ' ' !in surname
    requires r.title == word + " " + rest && ' ' !in word
    requires forall k :: 0 <= k < |word| ==> IsAsciiLetter(word[k])
    ensures CitationKey(r) == surname + IntToString(r.year) + word
  {
    LastWordAfterLastBlank(given, surname);
    FirstWordBeforeBlank(word, rest);
    LettersOnlyOfLetters(word);
  }
}
