/**
 * `parse_arxiv_text`, which turns the text of the arXiv search tool into
 * papers. The backend copy (backend/src/helpers/parsers.py) and the older
 * copy (src/utilities/parsers.py) differ only in the names of the output
 * types, so one model serves both.
 *
 * The text is split before every line that starts with `Published:`; an
 * entry becomes a paper only when it holds all four labels. The regular
 * expressions are modelled by the first occurrence of their label:
 * `Label:\s*(.*)` skips the whitespace after the label (newlines included)
 * and takes the rest of that line; the lazy summary pattern, anchored at
 * the end, takes everything after its label up to the end of the entry
 * (or a final newline), which after stripping is the stripped remainder.
 */
module Arxiv {
  import opened Wrappers
  import opened Text
  import opened Models

  /** The text the search wrapper returns when nothing was found; it is passed on unparsed. */
  const NoResultText := "No good Arxiv Result was found"

  /** The separator `re.split` removes: a newline followed by `Published:` (the label itself stays). */
  const EntryBreak := "\nPublished:"

  /** `s` cut before every occurrence of `pat`, dropping the first character of each occurrence. */
  function SplitBefore(s: string, pat: string): (parts: seq<string>)
    requires |pat| > 0
    ensures |parts| >= 1
    decreases |s|
  {
    match IndexOf(s, pat)
    case None => [s]
    case Some(i) => [s[..i]] + SplitBefore(s[i + 1..], pat)
  }

  /** `re.split(r"\n(?=Published:)", s)`. */
  function SplitEntries(s: string): seq<string>
  {
    SplitBefore(s, EntryBreak)
  }

  /** Joining the parts with the dropped character gives back the text. */
  lemma {:induction false} SplitBeforeJoin(s: string, pat: string)
    requires |pat| > 0
    ensures Join([pat[0]], SplitBefore(s, pat)) == s
    decreases |s|
  {
    match IndexOf(s, pat)
    case None =>
    case Some(i) =>
      var rest := SplitBefore(s[i + 1..], pat);
      SplitBeforeJoin(s[i + 1..], pat);
      assert SplitBefore(s, pat) == [s[..i]] + rest;
      assert ([s[..i]] + rest)[1..] == rest;
      assert s[i] == pat[0] by {
        assert s[i..i + |pat|] == pat;
      }
      assert s == s[..i] + [pat[0]] + s[i + 1..];
  }

  /** An occurrence inside a prefix is an occurrence in the whole text, ending inside the prefix. */
  lemma PrefixOccurrence(s: string, pat: string, i: nat, j: nat)
    requires i <= |s| && OccursAt(s[..i], pat, j)
    ensures OccursAt(s, pat, j) && j + |pat| <= i
  {
    assert s[..i][j..j + |pat|] == s[j..j + |pat|];
  }

  /** The text before the first occurrence of `pat` holds no occurrence of it. */
  lemma BeforeFirstIsFree(s: string, pat: string, i: nat)
    requires |pat| > 0 && IndexOf(s, pat) == Some(i)
    ensures IndexOf(s[..i], pat).None?
  {
    if IndexOf(s[..i], pat).Some? {
      PrefixOccurrence(s, pat, i, IndexOf(s[..i], pat).value);
      assert false;
    }
  }

  /**
   * When the text starts with the rest of `pat` and the first character of
   * `pat` does not recur in it, the first part still starts with the rest of `pat`.
   */
  lemma FirstPartStarts(t: string, pat: string)
    requires |pat| > 0 && pat[0] !in pat[1..]
    requires OccursAt(t, pat[1..], 0)
    ensures OccursAt(SplitBefore(t, pat)[0], pat[1..], 0)
  {
    match IndexOf(t, pat)
    case None =>
    case Some(j) =>
      assert SplitBefore(t, pat)[0] == t[..j];
      if j < |pat| - 1 {
        assert false;
      }
      assert t[..j][0..|pat| - 1] == t[0..|pat| - 1];
  }

  /** Every part but the first starts with the rest of `pat`, and no part holds `pat`, when the first character of `pat` does not recur in it. */
  lemma {:induction false} SplitBeforeShape(s: string, pat: string)
    requires |pat| > 0 && pat[0] !in pat[1..]
    ensures forall k :: 1 <= k < |SplitBefore(s, pat)| ==> OccursAt(SplitBefore(s, pat)[k], pat[1..], 0)
    ensures forall k :: 0 <= k < |SplitBefore(s, pat)| ==> IndexOf(SplitBefore(s, pat)[k], pat).None?
    decreases |s|
  {
    match IndexOf(s, pat)
    case None =>
    case Some(i) =>
      var rest := SplitBefore(s[i + 1..], pat);
      SplitBeforeShape(s[i + 1..], pat);
      var parts := [s[..i]] + rest;
      assert SplitBefore(s, pat) == parts;
      assert OccursAt(s[i + 1..], pat[1..], 0) by {
        assert s[i + 1..][0..|pat| - 1] == s[i..i + |pat|][1..];
      }
      BeforeFirstIsFree(s, pat, i);
      FirstPartStarts(s[i + 1..], pat);
      forall k | 1 <= k < |parts|
        ensures OccursAt(parts[k], pat[1..], 0)
      {
        assert parts[k] == rest[k - 1];
        if k > 1 {
          assert OccursAt(rest[k - 1], pat[1..], 0);
        }
      }
      forall k | 0 <= k < |parts|
        ensures IndexOf(parts[k], pat).None?
      {
        if k > 0 {
          assert parts[k] == rest[k - 1];
          assert IndexOf(rest[k - 1], pat).None?;
        }
      }
  }

  /** Joining the entries with newlines gives back the text: the split drops only the newline before each `Published:`. */
  lemma SplitEntriesJoin(s: string)
    ensures Join("\n", SplitEntries(s)) == s
  {
    SplitBeforeJoin(s, EntryBreak);
    assert [EntryBreak[0]] == "\n";
  }

  /** Every entry but the first starts with `Published:`, and no entry holds another break. */
  lemma SplitEntriesShape(s: string)
    ensures forall k :: 1 <= k < |SplitEntries(s)| ==> OccursAt(SplitEntries(s)[k], "Published:", 0)
    ensures forall k :: 0 <= k < |SplitEntries(s)| ==> IndexOf(SplitEntries(s)[k], EntryBreak).None?
  {
    assert EntryBreak[1..] == "Published:";
    assert EntryBreak[0] !in EntryBreak[1..];
    SplitBeforeShape(s, EntryBreak);
  }

  /** The text up to (not including) the first newline. */
  function LineOf(s: string): (r: string)
    ensures '\n' !in r
    ensures |r| <= |s| && r == s[..|r|]
    ensures |r| < |s| ==> s[|r|] == '\n'
  {
    if |s| == 0 || s[0] == '\n' then "" else [s[0]] + LineOf(s[1..])
  }

  /** `re.search(label + r"\s*(.*)", entry).group(1).strip()`, or `None` when the label does not occur. */
  function LineField(entry: string, tag: string): (field: Option<string>)
    ensures field.Some? <==> IndexOf(entry, tag).Some?
    ensures field.Some? ==> '\n' !in field.value
  {
    match IndexOf(entry, tag)
    case None => None
    case Some(p) => Some(Strip(LineOf(LStrip(entry[p + |tag|..]))))
  }

  /** `re.search(r"Summary:\s*((?:.|\n)*?)$", entry).group(1).strip()`, or `None` without the label. */
  function SummaryField(entry: string): (field: Option<string>)
    ensures field.Some? <==> IndexOf(entry, "Summary:").Some?
  {
    match IndexOf(entry, "Summary:")
    case None => None
    case Some(p) => Some(Strip(entry[p + |"Summary:"|..]))
  }

  /** The authors: the author line split at every comma, each name stripped. */
  function Authors(line: string): (authors: seq<string>)
    ensures |authors| == multiset(line)[','] + 1
    ensures forall k :: 0 <= k < |authors| ==> ',' !in authors[k]
  {
    SplitCharCount(line, ',');
    var parts := SplitChar(line, ',');
    var authors := MapSeq(parts, Strip);
    assert forall k :: 0 <= k < |authors| ==> authors[k] == Strip(parts[k]) && ',' !in parts[k];
    StripKeepsOut(parts, ',');
    authors
  }

  /** A stripped text is a slice of the original, so a character the original lacks is absent from it. */
  lemma StripKeepsOut(parts: seq<string>, c: char)
    requires forall k :: 0 <= k < |parts| ==> c !in parts[k]
    ensures forall k :: 0 <= k < |parts| ==> c !in Strip(parts[k])
  {
    forall k | 0 <= k < |parts|
      ensures c !in Strip(parts[k])
    {
      var l := LStrip(parts[k]);
      assert forall x :: x in l ==> x in parts[k];
      assert forall x :: x in RStrip(l) ==> x in l;
    }
  }

  /** One entry as a paper, when all four labels occur in it. */
  function ParseEntry(entry: string): (doc: Option<ArxivDoc>)
    ensures doc.Some? <==>
      (IndexOf(entry, "Published:").Some? && IndexOf(entry, "Title:").Some?
       && IndexOf(entry, "Authors:").Some? && IndexOf(entry, "Summary:").Some?)
    ensures doc.Some? ==> Clean(doc.value)
  {
    var published := LineField(entry, "Published:");
    var title := LineField(entry, "Title:");
    var authors := LineField(entry, "Authors:");
    var summary := SummaryField(entry);
    if published.Some? && title.Some? && authors.Some? && summary.Some? then
      Some(ArxivDoc(title.value, Authors(authors.value), summary.value, published.value))
    else None
  }

  /** Neither leading nor trailing whitespace. */
  predicate Stripped(s: string)
  {
    s == [] || (!IsSpace(s[0]) && !IsSpace(s[|s| - 1]))
  }

  /** What a parsed paper looks like: stripped fields, a one-line title and date, and at least one author, none holding a comma. */
  predicate Clean(d: ArxivDoc)
  {
    Stripped(d.title) && Stripped(d.published) && Stripped(d.summary)
    && '\n' !in d.title && '\n' !in d.published
    && |d.authors| >= 1
    && (forall k :: 0 <= k < |d.authors| ==> ',' !in d.authors[k])
  }

  /** The value an option holds, as a list of zero or one elements. */
  function Present<U>(o: Option<U>): seq<U>
  {
    match o
    case Some(v) => [v]
    case None => []
  }

  /** The values `f` yields over `xs`, in order, skipping the missing ones. */
  function Collect<T, U>(xs: seq<T>, f: T -> Option<U>): seq<U>
  {
    if |xs| == 0 then [] else Collect(xs[..|xs| - 1], f) + Present(f(xs[|xs| - 1]))
  }

  lemma CollectStep<T, U>(xs: seq<T>, i: nat, f: T -> Option<U>)
    requires i < |xs|
    ensures Collect(xs[..i + 1], f) == Collect(xs[..i], f) + Present(f(xs[i]))
  {
    assert xs[..i + 1][..i] == xs[..i];
  }

  /** A value is collected exactly when some element yields it, and no more values than elements are collected. */
  lemma {:induction false} CollectMembers<T, U>(xs: seq<T>, f: T -> Option<U>, d: U)
    ensures d in Collect(xs, f) <==> exists k :: 0 <= k < |xs| && f(xs[k]) == Some(d)
    ensures |Collect(xs, f)| <= |xs|
  {
    if |xs| > 0 {
      var init := xs[..|xs| - 1];
      CollectMembers(init, f, d);
      if d in Collect(xs, f) && d !in Collect(init, f) {
        assert f(xs[|xs| - 1]) == Some(d);
      }
      if exists k :: 0 <= k < |xs| && f(xs[k]) == Some(d) {
        var k :| 0 <= k < |xs| && f(xs[k]) == Some(d);
        if k < |init| {
          assert init[k] == xs[k];
        }
      }
      forall k | 0 <= k < |init|
        ensures init[k] == xs[k]
      {
      }
    }
  }

  /** The papers of a list of entries, in entry order. */
  function ParseEntries(entries: seq<string>): seq<ArxivDoc>
  {
    Collect(entries, ParseEntry)
  }

  /** What `parse_arxiv_text` returns: no-result only for the sentinel text, whose message is kept. */
  function Parsed(raw: string): (output: ArxivOutput)
    ensures output.results.NoResults? <==> raw == NoResultText
    ensures output.results.NoResults? ==> output.results.message == raw
  {
    if raw == NoResultText then ArxivOutput(NoResults(NoResultText))
    else ArxivOutput(Papers(ParseEntries(SplitEntries(Strip(raw)))))
  }

  /** `parse_arxiv_text`: the sentinel is passed on, otherwise the entries are parsed one by one. */
  method ParseArxivText(raw: string) returns (output: ArxivOutput)
    ensures output == Parsed(raw)
  {
    if raw == NoResultText {
      return ArxivOutput(NoResults(NoResultText));
    }
    var entries := SplitEntries(Strip(raw));
    var results: seq<ArxivDoc> := [];
    var i := 0;
    while i < |entries|
      invariant 0 <= i <= |entries|
      invariant results == ParseEntries(entries[..i])
    {
      var entry := entries[i];
      CollectStep(entries, i, ParseEntry);
      var published := LineField(entry, "Published:");
      var title := LineField(entry, "Title:");
      var authors := LineField(entry, "Authors:");
      var summary := SummaryField(entry);
      if published.Some? && title.Some? && authors.Some? && summary.Some? {
        results := results + [ArxivDoc(title.value, Authors(authors.value), summary.value, published.value)];
      }
      i := i + 1;
    }
    assert entries[..i] == entries;
    output := ArxivOutput(Papers(results));
  }

  /** Each paper comes from an entry holding all four labels, every such entry gives one, and there are no more papers than entries. */
  lemma ParseEntriesMembers(entries: seq<string>, d: ArxivDoc)
    ensures d in ParseEntries(entries) <==> exists k :: 0 <= k < |entries| && ParseEntry(entries[k]) == Some(d)
    ensures |ParseEntries(entries)| <= |entries|
  {
    CollectMembers(entries, ParseEntry, d);
  }

  /** Text without a `Summary:` label gives no paper, however it is split. */
  lemma {:induction false} NoLabelsNoPapers(entries: seq<string>)
    requires forall k :: 0 <= k < |entries| ==> IndexOf(entries[k], "Summary:").None?
    ensures ParseEntries(entries) == []
  {
    if |entries| > 0 {
      NoLabelsNoPapers(entries[..|entries| - 1]);
      assert ParseEntry(entries[|entries| - 1]).None?;
    }
  }
}
