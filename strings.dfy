/** The JavaScript string operations the application relies on:
    `toLowerCase`, `includes`, `split` on a one-character separator,
    `join`, `trim`, and the decimal rendering of an integer. */
module Strings {

  // ---------------------------------------------------------------- case

  function LowerChar(c: char): char {
    if 'A' <= c <= 'Z' then (c as int + 32) as char else c
  }

  /** `s.toLowerCase()`, restricted to the ASCII letters. */
  function ToLower(s: string): (r: string)
    ensures |r| == |s|
    ensures forall i :: 0 <= i < |s| ==> r[i] == LowerChar(s[i])
  {
    seq(|s|, i requires 0 <= i < |s| => LowerChar(s[i]))
  }

  lemma ToLowerIdempotent(s: string)
    ensures ToLower(ToLower(s)) == ToLower(s)
  {
  }

  // ---------------------------------------------------------- substring

  /** `s.includes(t)`: `t` occurs in `s` at some position. */
  predicate Contains(s: string, t: string)
    decreases |s|
  {
    |t| <= |s| && (s[..|t|] == t || Contains(s[1..], t))
  }

  lemma {:induction false} ContainsAt(s: string, t: string, i: nat)
    requires i + |t| <= |s| && s[i..i + |t|] == t
    ensures Contains(s, t)
    decreases i
  {
    if i > 0 {
      assert s[1..][i - 1..i - 1 + |t|] == s[i..i + |t|];
      ContainsAt(s[1..], t, i - 1);
    }
  }

  /** A word sits inside any text that surrounds it. */
  lemma ContainsMiddle(before: string, word: string, after: string)
    ensures Contains(before + word + after, word)
  {
    var s := before + word + after;
    assert s[|before|..|before| + |word|] == word;
    ContainsAt(s, word, |before|);
  }

  // --------------------------------------------------------- whitespace

  /** The characters `String.prototype.trim` removes: tab, vertical tab,
      form feed, the byte order mark, every space separator (Unicode
      category Zs) and the four line terminators. */
  predicate IsWhitespace(c: char) {
    || c == '\t' || c == '\U{000B}' || c == '\U{000C}' || c == '\U{FEFF}'
    || c == ' ' || c == '\U{00A0}' || c == '\U{1680}' || '\U{2000}' <= c <= '\U{200A}'
    || c == '\U{202F}' || c == '\U{205F}' || c == '\U{3000}'
    || c == '\n' || c == '\r' || c == '\U{2028}' || c == '\U{2029}'
  }

  function TrimStart(s: string): (r: string)
  {
    if s != [] && IsWhitespace(s[0]) then TrimStart(s[1..]) else s
  }

  function TrimEnd(s: string): (r: string)
  {
    if s != [] && IsWhitespace(s[|s| - 1]) then TrimEnd(s[..|s| - 1]) else s
  }

  /** `s.trim()`. */
  function Trim(s: string): string {
    TrimEnd(TrimStart(s))
  }

  /** A string that `trim` leaves unchanged. */
  predicate Trimmed(s: string) {
    Trim(s) == s
  }

  /** `trim` removes everything exactly when every character is
      whitespace. */
  lemma {:induction false} TrimBlank(s: string)
    ensures Trim(s) == [] <==> forall i :: 0 <= i < |s| ==> IsWhitespace(s[i])
  {
    TrimStartBlank(s);
    var t := TrimStart(s);
    if t != [] {
      TrimStartFirst(s);
      TrimEndKeepsFirst(t);
    }
  }

  lemma {:induction false} TrimStartBlank(s: string)
    ensures TrimStart(s) == [] <==> forall i :: 0 <= i < |s| ==> IsWhitespace(s[i])
  {
    if s != [] && IsWhitespace(s[0]) {
      TrimStartBlank(s[1..]);
      assert forall i :: 1 <= i < |s| ==> s[i] == s[1..][i - 1];
    }
  }

  lemma {:induction false} TrimStartFirst(s: string)
    requires TrimStart(s) != []
    ensures !IsWhitespace(TrimStart(s)[0])
  {
    if s != [] && IsWhitespace(s[0]) {
      TrimStartFirst(s[1..]);
    }
  }

  lemma {:induction false} TrimEndKeepsFirst(s: string)
    requires s != [] && !IsWhitespace(s[0])
    ensures TrimEnd(s) != [] && TrimEnd(s)[0] == s[0]
  {
    if IsWhitespace(s[|s| - 1]) {
      TrimEndKeepsFirst(s[..|s| - 1]);
    }
  }

  lemma TrimLeadingSpace(s: string)
    ensures Trim(" " + s) == Trim(s)
  {
    assert (" " + s)[1..] == s;
  }

  // -------------------------------------------------------- split / join

  /** `s.split(c)` for a one-character separator: the pieces between the
      occurrences of `c`; there is always one more piece than occurrences. */
  function Split(s: string, c: char): (r: seq<string>)
    ensures |r| >= 1
    ensures forall k :: 0 <= k < |r| ==> c !in r[k]
  {
    if s == [] then [""]
    else
      var rest := Split(s[1..], c);
      if s[0] == c then [""] + rest
      else [[s[0]] + rest[0]] + rest[1..]
  }

  lemma {:induction false} SplitWithoutSeparator(s: string, c: char)
    requires c !in s
    ensures Split(s, c) == [s]
  {
    if s != [] {
      SplitWithoutSeparator(s[1..], c);
      assert [s[0]] + s[1..] == s;
    }
  }

  /** `xs.join(sep)`. */
  function Join(xs: seq<string>, sep: string): string {
    if |xs| == 0 then ""
    else if |xs| == 1 then xs[0]
    else xs[0] + sep + Join(xs[1..], sep)
  }

  /** A separator that sits after a piece free of it starts a new piece. */
  lemma {:induction false} SplitAfterSeparator(a: string, c: char, b: string)
    requires c !in a
    ensures Split(a + [c] + b, c) == [a] + Split(b, c)
  {
    if a == [] {
      assert a + [c] + b == [c] + b;
      assert ([c] + b)[1..] == b;
    } else {
      assert (a + [c] + b)[1..] == a[1..] + [c] + b;
      SplitAfterSeparator(a[1..], c, b);
      assert [a[0]] + a[1..] == a;
    }
  }

  /** Splitting around one separator splits each side on its own. */
  lemma {:induction false} SplitAround(a: string, c: char, b: string)
    ensures Split(a + [c] + b, c) == Split(a, c) + Split(b, c)
  {
    if a == [] {
      assert a + [c] + b == [c] + b;
      assert ([c] + b)[1..] == b;
    } else {
      assert (a + [c] + b)[1..] == a[1..] + [c] + b;
      SplitAround(a[1..], c, b);
    }
  }

  /** A leading non-separator character joins the first piece. */
  lemma SplitCons(x: char, s: string, c: char)
    requires x != c
    ensures Split([x] + s, c) == [[x] + Split(s, c)[0]] + Split(s, c)[1..]
  {
    assert ([x] + s)[1..] == s;
  }

  function MapTrim(xs: seq<string>): (r: seq<string>)
    ensures |r| == |xs|
    ensures forall k :: 0 <= k < |xs| ==> r[k] == Trim(xs[k])
  {
    if xs == [] then [] else [Trim(xs[0])] + MapTrim(xs[1..])
  }

  /** `s.split(",").map(x => x.trim())`. */
  function SplitTrim(s: string): (r: seq<string>)
    ensures |r| >= 1
  {
    MapTrim(Split(s, ','))
  }

  /** Items that survive being joined with ", " and split again: no comma
      inside and nothing for `trim` to remove. */
  predicate ListItemSafe(x: string) {
    ',' !in x && Trimmed(x)
  }

  lemma MapTrimCons(x: string, xs: seq<string>)
    ensures MapTrim([x] + xs) == [Trim(x)] + MapTrim(xs)
  {
    assert ([x] + xs)[1..] == xs;
  }

  /** The pieces of a list joined with ", ": the first item, then each
      later piece with the blank that followed its comma. */
  lemma SplitJoinShape(xs: seq<string>)
    requires |xs| >= 2 && ',' !in xs[0]
    ensures Split(Join(xs, ", "), ',') ==
            [xs[0]] + ([[' '] + Split(Join(xs[1..], ", "), ',')[0]] + Split(Join(xs[1..], ", "), ',')[1..])
  {
    var j := Join(xs[1..], ", ");
    var tail := [' '] + j;
    assert Join(xs, ", ") == xs[0] + ", " + j;
    assert xs[0] + ", " + j == xs[0] + [','] + tail;
    SplitAfterSeparator(xs[0], ',', tail);
    SplitCons(' ', j, ',');
  }

  /** Joining with ", " and then splitting on "," and trimming gives the
      list back. */
  lemma {:induction false} SplitTrimJoin(xs: seq<string>)
    requires |xs| >= 1
    requires forall k :: 0 <= k < |xs| ==> ListItemSafe(xs[k])
    ensures SplitTrim(Join(xs, ", ")) == xs
  {
    if |xs| == 1 {
      SplitWithoutSeparator(xs[0], ',');
    } else {
      var pieces := Split(Join(xs[1..], ", "), ',');
      assert ListItemSafe(xs[0]);
      SplitJoinShape(xs);
      var first := [' '] + pieces[0];
      MapTrimCons(xs[0], [first] + pieces[1..]);
      MapTrimCons(first, pieces[1..]);
      TrimLeadingSpace(pieces[0]);
      assert " " + pieces[0] == first;
      MapTrimCons(pieces[0], pieces[1..]);
      assert [pieces[0]] + pieces[1..] == pieces;
      SplitTrimJoin(xs[1..]);
      assert MapTrim(pieces) == xs[1..];
      assert [xs[0]] + xs[1..] == xs;
    }
  }

  // ------------------------------------------------------------ numbers

  function DigitChar(d: nat): (c: char)
    requires d < 10
    ensures '0' <= c <= '9'
  {
    (48 + d) as char
  }

  function NatToString(n: nat): (r: string)
    ensures |r| >= 1
  {
    if n < 10 then [DigitChar(n)] else NatToString(n / 10) + [DigitChar(n % 10)]
  }

  /** The decimal text of a natural number is made of digits only. */
  lemma {:induction false} NatToStringDigits(n: nat)
    ensures forall k :: 0 <= k < |NatToString(n)| ==> '0' <= NatToString(n)[k] <= '9'
  {
    if n >= 10 {
      NatToStringDigits(n / 10);
    }
  }

  /** The decimal text of an integer, as template-literal interpolation
      renders a whole number. */
  function IntToString(n: int): (r: string)
    ensures |r| >= 1
  {
    if n < 0 then "-" + NatToString(-n) else NatToString(n)
  }

  /** The text starts with a minus sign exactly for negative numbers, and
      is otherwise made of digits. */
  lemma IntToStringSign(n: int)
    ensures (IntToString(n)[0] == '-') <==> n < 0
    ensures forall k :: 0 < k < |IntToString(n)| ==> '0' <= IntToString(n)[k] <= '9'
    ensures n >= 0 ==> '0' <= IntToString(n)[0] <= '9'
  {
    if n < 0 {
      NatToStringDigits(-n);
      assert forall k :: 0 < k < |IntToString(n)| ==> IntToString(n)[k] == NatToString(-n)[k - 1];
    } else {
      NatToStringDigits(n);
    }
  }

  // ------------------------------------------------------------ letters

  predicate IsAsciiLetter(c: char) {
    'a' <= c <= 'z' || 'A' <= c <= 'Z'
  }

  /** `s.replace(/[^a-zA-Z]/g, "")`. */
  function LettersOnly(s: string): (r: string)
    ensures |r| <= |s|
    ensures forall k :: 0 <= k < |r| ==> IsAsciiLetter(r[k])
    ensures forall k :: 0 <= k < |s| && IsAsciiLetter(s[k]) ==> s[k] in r
  {
    if s == [] then []
    else (if IsAsciiLetter(s[0]) then [s[0]] else []) + LettersOnly(s[1..])
  }

  /** The letters of a text are the letters of its first part followed by
      those of its second part, so order and repetitions are kept. */
  lemma {:induction false} LettersOnlyAppend(a: string, b: string)
    ensures LettersOnly(a + b) == LettersOnly(a) + LettersOnly(b)
  {
    if a != [] {
      assert (a + b)[0] == a[0];
      assert (a + b)[1..] == a[1..] + b;
      LettersOnlyAppend(a[1..], b);
      var head := if IsAsciiLetter(a[0]) then [a[0]] else [];
      assert LettersOnly(a + b) == head + (LettersOnly(a[1..]) + LettersOnly(b));
      assert LettersOnly(a) == head + LettersOnly(a[1..]);
    } else {
      assert a + b == b;
    }
  }

  /** One character is kept exactly when it is an ASCII letter. */
  lemma LettersOnlyChar(c: char)
    ensures LettersOnly([c]) == (if IsAsciiLetter(c) then [c] else [])
  {
    assert [c][1..] == [];
  }

  /** Text made of letters only is left as it is. */
  lemma {:induction false} LettersOnlyOfLetters(s: string)
    requires forall k :: 0 <= k < |s| ==> IsAsciiLetter(s[k])
    ensures LettersOnly(s) == s
  {
    if s != [] {
      LettersOnlyOfLetters(s[1..]);
      assert [s[0]] + s[1..] == s;
    }
  }

  /** `s.split(" ")[0]`. */
  function FirstWord(s: string): (r: string)
    ensures ' ' !in r
    ensures |r| <= |s| && r == s[..|r|]
    ensures |r| < |s| ==> s[|r|] == ' '
  {
    if s == [] || s[0] == ' ' then "" else [s[0]] + FirstWord(s[1..])
  }

  /** The first word of a text that has a blank after its first word. */
  lemma {:induction false} FirstWordBeforeBlank(a: string, b: string)
    requires ' ' !in a
    ensures FirstWord(a + " " + b) == a
  {
    if a == [] {
      assert (a + " " + b)[0] == ' ';
    } else {
      assert (a + " " + b)[1..] == a[1..] + " " + b;
      FirstWordBeforeBlank(a[1..], b);
      assert [a[0]] + a[1..] == a;
    }
  }

  /** `s.split(" ").pop()`. */
  function LastWord(s: string): (r: string)
    ensures ' ' !in r
    ensures |r| <= |s|
  {
    if s == [] || s[|s| - 1] == ' ' then "" else LastWord(s[..|s| - 1]) + [s[|s| - 1]]
  }

  /** The last word of a text that has a blank before its last word. */
  lemma {:induction false} LastWordAfterLastBlank(a: string, b: string)
    requires ' ' !in b
    ensures LastWord(a + " " + b) == b
    decreases |b|
  {
    var s := a + " " + b;
    if b == [] {
      assert s[|s| - 1] == ' ';
    } else {
      assert s[..|s| - 1] == a + " " + b[..|b| - 1];
      LastWordAfterLastBlank(a, b[..|b| - 1]);
      assert b[..|b| - 1] + [b[|b| - 1]] == b;
    }
  }

  /** The last word is all of the text after the last blank: a suffix of
      `s`, preceded by a blank unless it is all of `s`. */
  lemma {:induction false} LastWordAfterBlank(s: string)
    ensures LastWord(s) == s[|s| - |LastWord(s)|..]
    ensures |LastWord(s)| < |s| ==> s[|s| - |LastWord(s)| - 1] == ' '
  {
    if s != [] && s[|s| - 1] != ' ' {
      LastWordAfterBlank(s[..|s| - 1]);
    }
  }
}
