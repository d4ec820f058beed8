/**
 * The evidence normaliser of backend/src/tools/formatter.py: one section's
 * sparse tool-output record becomes a text block, tool by tool in a fixed
 * order, with every per-item excerpt cut at a fixed length, and the source
 * URLs are appended to the section's Reference object.
 *
 * `EvidenceText` and `EvidenceUrls` say what `RollOutOutput` produces; the
 * lemmas below state what the normaliser promises about them.
 */
module Formatter {
  import opened Wrappers
  import opened Text
  import opened Models

  // ---------------------------------------------------------------------
  // Per-item excerpts and the URL each item contributes
  // ---------------------------------------------------------------------

  /** A DuckDuckGo hit: title and snippet, cut at 1000 characters, then a blank line. */
  function DuckDuckGoEntry(d: DuckDuckGoOutput): (r: string)
    ensures |r| <= 1002
  {
    Take(d.title + " " + d.snippet + "\n\n", 1000) + "\n\n"
  }

  function DuckDuckGoLink(d: DuckDuckGoOutput): string { d.link }

  /** An Exa hit: its highlights run together, cut at 1000 characters. */
  function ExaEntry(e: ExaOutput): (r: string)
    ensures |r| <= 1003
  {
    Take(Concat(e.highlights), 1000) + " \n\n"
  }

  function ExaLink(e: ExaOutput): string { e.url }

  /** A Serper organic result: title and snippet, the whole cut at 2000 characters. */
  function OrganicEntry(o: OrganicItem): (r: string)
    ensures |r| <= 2000
  {
    Take(o.title + " " + o.snippet + " \n\n", 2000)
  }

  function OrganicLink(o: OrganicItem): string { o.link }

  /** A repository found by language search; not truncated. */
  function GitHubLanguageEntry(g: GitHubRepoItem): string
  {
    "Github repo's name: " + g.name + " Repo's full name: " + g.fullName
    + " Number of stars: " + IntToString(g.stars) + " URL of the repo: " + g.url + "\n\n"
  }

  function GitHubLanguageLink(g: GitHubRepoItem): string { g.url }

  /** The authors an arXiv entry shows: at most the first four. */
  function ShownAuthors(d: ArxivDoc): (r: seq<string>)
    ensures |r| <= 4 && |r| <= |d.authors|
    ensures r == d.authors[..|r|]
    ensures |r| == if |d.authors| <= 4 then |d.authors| else 4
  {
    if |d.authors| <= 4 then d.authors else d.authors[..4]
  }

  /** An arXiv paper: title, up to four authors, the first 200 characters of the summary, the date. */
  function ArxivEntry(d: ArxivDoc): string
  {
    "Paper Title: " + d.title + " Authors: " + Join("  ", ShownAuthors(d))
    + " Summary: " + Take(d.summary, 200) + " Published: " + d.published + "\n\n"
  }

  /** A Tavily result: title and content, the whole cut at 500 characters. */
  function TavilyEntry(t: TavilyItem): (r: string)
    ensures |r| <= 500
  {
    Take("Title: " + t.title + " Content: " + t.content + " \n\n", 500)
  }

  function TavilyLink(t: TavilyItem): string { t.url }

  const GitHubPrefix := "https://github.com/"

  function GitHubUserText(gh: GitHubUserOutput): string
  {
    "Github username: " + gh.login + " User's full name: " + ShowOpt(gh.name)
    + " Number of public repos: " + IntToString(gh.publicRepos)
    + " Number of followers: " + IntToString(gh.followers)
    + " Bio of the user: " + ShowOpt(gh.bio) + " Location of the user: " + ShowOpt(gh.location) + "\n\n"
  }

  function GitHubRepoText(gh: GitHubRepoOutput): string
  {
    "Github Repo name: " + gh.name + " Repo's full name: " + gh.fullName
    + " Description of repo: " + ShowOpt(gh.description) + " Number of stars: " + IntToString(gh.stars)
    + " Number of forks: " + IntToString(gh.forks) + " Language used: " + ShowOpt(gh.language)
    + " Topics:\n" + Join("\n", gh.topics) + "\n\n"
  }

  function GitHubOrgText(gh: GitHubOrgOutput): string
  {
    "Github Org login: " + gh.login + " Org's full name: " + ShowOpt(gh.name)
    + " Org's description: " + ShowOpt(gh.description)
    + " Number of public_repo: " + IntToString(gh.publicRepos)
    + " Member of repo: " + Concat(gh.members) + "\n\n"
  }

  // ---------------------------------------------------------------------
  // Headings and per-tool blocks
  // ---------------------------------------------------------------------

  const DuckDuckGoHeading := "DUCK DUCK GO SEARCH:\n\n\n"
  const ExaHeading := "EXA SEARCH:\n\n\n"
  const SerperHeading := "SERPER SEARCH:\n\n\n"
  const GitHubUserHeading := "GITHUB USER:\n\n\n"
  const GitHubRepoHeading := "GITHUB REPO:\n\n"
  const GitHubOrgHeading := "GITHUB ORG:\n\n"
  const GitHubLanguageHeading := "GITHUB REPO Based on language:\n\n"
  const ArxivHeading := "ARXIV Output:\n\n"
  const TavilyHeading := "TAVILY Output:\n\n"

  /** A list-valued output counts as present only when it is a non-empty list (Python truthiness). */
  predicate NonEmpty<T>(o: Option<seq<T>>)
  {
    o.Some? && |o.value| > 0
  }

  function DuckDuckGoBlock(o: Option<seq<DuckDuckGoOutput>>): string
  {
    if NonEmpty(o) then DuckDuckGoHeading + ConcatMap(o.value, DuckDuckGoEntry) else ""
  }

  function DuckDuckGoUrls(o: Option<seq<DuckDuckGoOutput>>): seq<string>
  {
    if NonEmpty(o) then MapSeq(o.value, DuckDuckGoLink) else []
  }

  function ExaBlock(o: Option<seq<ExaOutput>>): string
  {
    if NonEmpty(o) then ExaHeading + ConcatMap(o.value, ExaEntry) else ""
  }

  function ExaUrls(o: Option<seq<ExaOutput>>): seq<string>
  {
    if NonEmpty(o) then MapSeq(o.value, ExaLink) else []
  }

  // The remaining outputs are records, and a record is always truthy: a
  // present record emits its heading even when its inner list is empty.

  function SerperBlock(o: Option<SerperQueryOutput>): string
  {
    if o.Some? then SerperHeading + ConcatMap(o.value.organicResults, OrganicEntry) else ""
  }

  function SerperUrls(o: Option<SerperQueryOutput>): seq<string>
  {
    if o.Some? then MapSeq(o.value.organicResults, OrganicLink) else []
  }

  function GitHubUserBlock(o: Option<GitHubUserOutput>): string
  {
    if o.Some? then GitHubUserHeading + GitHubUserText(o.value) else ""
  }

  function GitHubUserUrls(o: Option<GitHubUserOutput>): seq<string>
  {
    if o.Some? then [GitHubPrefix + o.value.login] else []
  }

  function GitHubRepoBlock(o: Option<GitHubRepoOutput>): string
  {
    if o.Some? then GitHubRepoHeading + GitHubRepoText(o.value) else ""
  }

  function GitHubRepoUrls(o: Option<GitHubRepoOutput>): seq<string>
  {
    if o.Some? then [GitHubPrefix + o.value.fullName] else []
  }

  function GitHubOrgBlock(o: Option<GitHubOrgOutput>): string
  {
    if o.Some? then GitHubOrgHeading + GitHubOrgText(o.value) else ""
  }

  function GitHubOrgUrls(o: Option<GitHubOrgOutput>): seq<string>
  {
    if o.Some? then [GitHubPrefix + o.value.login] else []
  }

  function GitHubLanguageBlock(o: Option<GitHubLanguageOutput>): string
  {
    if o.Some? then GitHubLanguageHeading + ConcatMap(o.value.results, GitHubLanguageEntry) else ""
  }

  function GitHubLanguageUrls(o: Option<GitHubLanguageOutput>): seq<string>
  {
    if o.Some? then MapSeq(o.value.results, GitHubLanguageLink) else []
  }

  function ArxivBlock(o: Option<ArxivOutput>): string
  {
    if o.None? then ""
    else match o.value.results
      case Papers(docs) => ArxivHeading + ConcatMap(docs, ArxivEntry)
      case NoResults(_) => ArxivHeading
  }

  function TavilyBlock(o: Option<TavilyQueryOutput>): string
  {
    if o.Some? then TavilyHeading + ConcatMap(o.value.results, TavilyEntry) else ""
  }

  function TavilyUrls(o: Option<TavilyQueryOutput>): seq<string>
  {
    if o.Some? then MapSeq(o.value.results, TavilyLink) else []
  }

  /** The whole evidence text: the nine blocks in the fixed tool order. */
  function EvidenceText(s: ToolOutputState): string
  {
    DuckDuckGoBlock(s.duckduckgoOutput) + ExaBlock(s.exaOutput) + SerperBlock(s.serperOutput)
    + GitHubUserBlock(s.githubUserOutput) + GitHubRepoBlock(s.githubRepoOutput)
    + GitHubOrgBlock(s.githubOrgOutput) + GitHubLanguageBlock(s.githubLanguageOutput)
    + ArxivBlock(s.arxivOutput) + TavilyBlock(s.tavilyOutput)
  }

  /** The URLs the record contributes, in the same tool order and in item order; arXiv gives none. */
  function EvidenceUrls(s: ToolOutputState): seq<string>
  {
    DuckDuckGoUrls(s.duckduckgoOutput) + ExaUrls(s.exaOutput) + SerperUrls(s.serperOutput)
    + GitHubUserUrls(s.githubUserOutput) + GitHubRepoUrls(s.githubRepoOutput)
    + GitHubOrgUrls(s.githubOrgOutput) + GitHubLanguageUrls(s.githubLanguageOutput)
    + TavilyUrls(s.tavilyOutput)
  }

  // ---------------------------------------------------------------------
  // What the normaliser promises
  // ---------------------------------------------------------------------

  /** Where a reference URL may come from: a hit's own link, or a GitHub page synthesised from a login or full name. */
  predicate UrlFromRecord(s: ToolOutputState, u: string)
  {
    (s.duckduckgoOutput.Some? && exists d :: d in s.duckduckgoOutput.value && d.link == u)
    || (s.exaOutput.Some? && exists e :: e in s.exaOutput.value && e.url == u)
    || (s.serperOutput.Some? && exists o :: o in s.serperOutput.value.organicResults && o.link == u)
    || (s.githubUserOutput.Some? && u == GitHubPrefix + s.githubUserOutput.value.login)
    || (s.githubRepoOutput.Some? && u == GitHubPrefix + s.githubRepoOutput.value.fullName)
    || (s.githubOrgOutput.Some? && u == GitHubPrefix + s.githubOrgOutput.value.login)
    || (s.githubLanguageOutput.Some? && exists g :: g in s.githubLanguageOutput.value.results && g.url == u)
    || (s.tavilyOutput.Some? && exists t :: t in s.tavilyOutput.value.results && t.url == u)
  }

  /** The collected URLs are exactly the URLs the record's results carry; nothing is invented or lost. */
  lemma EvidenceUrlsSources(s: ToolOutputState, u: string)
    ensures u in EvidenceUrls(s) <==> UrlFromRecord(s, u)
  {
    if s.duckduckgoOutput.Some? { MapSeqMember(s.duckduckgoOutput.value, DuckDuckGoLink, u); }
    if s.exaOutput.Some? { MapSeqMember(s.exaOutput.value, ExaLink, u); }
    if s.serperOutput.Some? { MapSeqMember(s.serperOutput.value.organicResults, OrganicLink, u); }
    if s.githubLanguageOutput.Some? { MapSeqMember(s.githubLanguageOutput.value.results, GitHubLanguageLink, u); }
    if s.tavilyOutput.Some? { MapSeqMember(s.tavilyOutput.value.results, TavilyLink, u); }
  }

  function ListLength<T>(o: Option<seq<T>>): nat
  {
    if o.Some? then |o.value| else 0
  }

  function Present<T>(o: Option<T>): nat
  {
    if o.Some? then 1 else 0
  }

  /** One URL per search hit, one per GitHub record, one per language-search repository, none per paper. */
  function ExpectedUrlCount(s: ToolOutputState): nat
  {
    ListLength(s.duckduckgoOutput) + ListLength(s.exaOutput)
    + (if s.serperOutput.Some? then |s.serperOutput.value.organicResults| else 0)
    + Present(s.githubUserOutput) + Present(s.githubRepoOutput) + Present(s.githubOrgOutput)
    + (if s.githubLanguageOutput.Some? then |s.githubLanguageOutput.value.results| else 0)
    + (if s.tavilyOutput.Some? then |s.tavilyOutput.value.results| else 0)
  }

  lemma EvidenceUrlsCount(s: ToolOutputState)
    ensures |EvidenceUrls(s)| == ExpectedUrlCount(s)
  {
    var ddg, exa, serper := DuckDuckGoUrls(s.duckduckgoOutput), ExaUrls(s.exaOutput), SerperUrls(s.serperOutput);
    var user, repo, org := GitHubUserUrls(s.githubUserOutput), GitHubRepoUrls(s.githubRepoOutput), GitHubOrgUrls(s.githubOrgOutput);
    var language, tavily := GitHubLanguageUrls(s.githubLanguageOutput), TavilyUrls(s.tavilyOutput);
    assert |ddg| == ListLength(s.duckduckgoOutput);
    assert |exa| == ListLength(s.exaOutput);
    assert |user| + |repo| + |org| == Present(s.githubUserOutput) + Present(s.githubRepoOutput) + Present(s.githubOrgOutput);
    assert |EvidenceUrls(s)| == |ddg| + |exa| + |serper| + |user| + |repo| + |org| + |language| + |tavily|;
  }

  /** arXiv results never add a URL, whatever they hold. */
  lemma ArxivAddsNoUrls(s: ToolOutputState, o: Option<ArxivOutput>)
    ensures EvidenceUrls(s.(arxivOutput := o)) == EvidenceUrls(s)
  {
  }

  /**
   * Python truthiness: an empty DuckDuckGo or Exa list emits nothing, while
   * a present Serper, Tavily or language-search record with no items still
   * emits its heading, and the no-result arXiv text emits the heading alone.
   */
  lemma EmptyResultsHeadings(msg: string)
    ensures DuckDuckGoBlock(Some([])) == "" && ExaBlock(Some([])) == ""
    ensures SerperBlock(Some(SerperQueryOutput([]))) == SerperHeading
    ensures TavilyBlock(Some(TavilyQueryOutput([]))) == TavilyHeading
    ensures GitHubLanguageBlock(Some(GitHubLanguageOutput([]))) == GitHubLanguageHeading
    ensures ArxivBlock(Some(ArxivOutput(NoResults(msg)))) == ArxivHeading
  {
  }

  /** A record with no results at all gives no text and no URLs. */
  lemma EmptyRecordGivesNothing()
    ensures EvidenceText(ToolOutputState()) == "" && EvidenceUrls(ToolOutputState()) == []
  {
  }

  /** Every excerpt of a capped tool is cut, so each block is bounded by its heading plus the cap per item. */
  lemma CappedBlockBounds(s: ToolOutputState)
    ensures s.duckduckgoOutput.Some? ==>
      |DuckDuckGoBlock(s.duckduckgoOutput)| <= |DuckDuckGoHeading| + 1002 * |s.duckduckgoOutput.value|
    ensures s.exaOutput.Some? ==> |ExaBlock(s.exaOutput)| <= |ExaHeading| + 1003 * |s.exaOutput.value|
    ensures s.serperOutput.Some? ==>
      |SerperBlock(s.serperOutput)| <= |SerperHeading| + 2000 * |s.serperOutput.value.organicResults|
    ensures s.tavilyOutput.Some? ==>
      |TavilyBlock(s.tavilyOutput)| <= |TavilyHeading| + 500 * |s.tavilyOutput.value.results|
  {
    if s.duckduckgoOutput.Some? { ConcatMapBound(s.duckduckgoOutput.value, DuckDuckGoEntry, 1002); }
    if s.exaOutput.Some? { ConcatMapBound(s.exaOutput.value, ExaEntry, 1003); }
    if s.serperOutput.Some? { ConcatMapBound(s.serperOutput.value.organicResults, OrganicEntry, 2000); }
    if s.tavilyOutput.Some? { ConcatMapBound(s.tavilyOutput.value.results, TavilyEntry, 500); }
  }

  // ---------------------------------------------------------------------
  // The normaliser itself
  // ---------------------------------------------------------------------

  /**
   * `roll_out_output`: tags `ref` with the section's name and id, appends
   * the record's URLs after those `ref` already holds, and returns the
   * evidence text. Each tool's block is appended by a helper below, in the
   * source's order.
   */
  method RollOutOutput(state: ToolOutputState, ref: Reference, section: Section) returns (text: string)
    modifies ref
    ensures ref.sectionName == Some(section.name) && ref.sectionId == Some(section.sectionId)
    ensures ref.sourceUrl == old(ref.sourceUrl) + EvidenceUrls(state)
    ensures text == EvidenceText(state)
  {
    text := "";
    ref.sectionName := Some(section.name);
    ref.sectionId := Some(section.sectionId);
    ghost var start := ref.sourceUrl;
    var block := RollOutDuckDuckGo(state.duckduckgoOutput, ref);
    EmptyAppend(block);
    text := text + block;
    ghost var urls := DuckDuckGoUrls(state.duckduckgoOutput);
    block := RollOutExa(state.exaOutput, ref);
    text := text + block;
    AppendAssoc(start, urls, ExaUrls(state.exaOutput));
    urls := urls + ExaUrls(state.exaOutput);
    block := RollOutSerper(state.serperOutput, ref);
    text := text + block;
    AppendAssoc(start, urls, SerperUrls(state.serperOutput));
    urls := urls + SerperUrls(state.serperOutput);
    block := RollOutGitHubUser(state.githubUserOutput, ref);
    text := text + block;
    AppendAssoc(start, urls, GitHubUserUrls(state.githubUserOutput));
    urls := urls + GitHubUserUrls(state.githubUserOutput);
    block := RollOutGitHubRepo(state.githubRepoOutput, ref);
    text := text + block;
    AppendAssoc(start, urls, GitHubRepoUrls(state.githubRepoOutput));
    urls := urls + GitHubRepoUrls(state.githubRepoOutput);
    block := RollOutGitHubOrg(state.githubOrgOutput, ref);
    text := text + block;
    AppendAssoc(start, urls, GitHubOrgUrls(state.githubOrgOutput));
    urls := urls + GitHubOrgUrls(state.githubOrgOutput);
    block := RollOutGitHubLanguage(state.githubLanguageOutput, ref);
    text := text + block;
    AppendAssoc(start, urls, GitHubLanguageUrls(state.githubLanguageOutput));
    urls := urls + GitHubLanguageUrls(state.githubLanguageOutput);
    block := RollOutArxiv(state.arxivOutput);
    text := text + block;
    block := RollOutTavily(state.tavilyOutput, ref);
    text := text + block;
    AppendAssoc(start, urls, TavilyUrls(state.tavilyOutput));
    urls := urls + TavilyUrls(state.tavilyOutput);
    assert urls == EvidenceUrls(state);
  }

  method RollOutDuckDuckGo(o: Option<seq<DuckDuckGoOutput>>, ref: Reference) returns (text: string)
    modifies ref`sourceUrl
    ensures text == DuckDuckGoBlock(o)
    ensures ref.sourceUrl == old(ref.sourceUrl) + DuckDuckGoUrls(o)
  {
    text := "";
    if NonEmpty(o) {
      var items := o.value;
      EmptyAppend(DuckDuckGoHeading);
      text := text + DuckDuckGoHeading;
      ghost var heading := text;
      var i := 0;
      while i < |items|
        invariant 0 <= i <= |items|
        invariant text == heading + ConcatMap(items[..i], DuckDuckGoEntry)
        invariant ref.sourceUrl == old(ref.sourceUrl) + MapSeq(items[..i], DuckDuckGoLink)
      {
        var duck := items[i];
        var duckString := duck.title + " " + duck.snippet + "\n\n";
        duckString := Take(duckString, 1000);
        FoldStep(heading, items, i, DuckDuckGoEntry, text);
        text := text + (duckString + "\n\n");
        MapStep(old(ref.sourceUrl), items, i, DuckDuckGoLink, ref.sourceUrl);
        ref.sourceUrl := ref.sourceUrl + [duck.link];
        i := i + 1;
      }
      assert items[..i] == items;
    }
  }

  method RollOutExa(o: Option<seq<ExaOutput>>, ref: Reference) returns (text: string)
    modifies ref`sourceUrl
    ensures text == ExaBlock(o)
    ensures ref.sourceUrl == old(ref.sourceUrl) + ExaUrls(o)
  {
    text := "";
    if NonEmpty(o) {
      var items := o.value;
      EmptyAppend(ExaHeading);
      text := text + ExaHeading;
      ghost var heading := text;
      var i := 0;
      while i < |items|
        invariant 0 <= i <= |items|
        invariant text == heading + ConcatMap(items[..i], ExaEntry)
        invariant ref.sourceUrl == old(ref.sourceUrl) + MapSeq(items[..i], ExaLink)
      {
        var exa := items[i];
        var highlightString := Concat(exa.highlights);
        highlightString := Take(highlightString, 1000);
        FoldStep(heading, items, i, ExaEntry, text);
        text := text + (highlightString + " \n\n");
        MapStep(old(ref.sourceUrl), items, i, ExaLink, ref.sourceUrl);
        ref.sourceUrl := ref.sourceUrl + [exa.url];
        i := i + 1;
      }
      assert items[..i] == items;
    }
  }

  method RollOutSerper(o: Option<SerperQueryOutput>, ref: Reference) returns (text: string)
    modifies ref`sourceUrl
    ensures text == SerperBlock(o)
    ensures ref.sourceUrl == old(ref.sourceUrl) + SerperUrls(o)
  {
    text := "";
    if o.Some? {
      var items := o.value.organicResults;
      EmptyAppend(SerperHeading);
      text := text + SerperHeading;
      ghost var heading := text;
      var i := 0;
      while i < |items|
        invariant 0 <= i <= |items|
        invariant text == heading + ConcatMap(items[..i], OrganicEntry)
        invariant ref.sourceUrl == old(ref.sourceUrl) + MapSeq(items[..i], OrganicLink)
      {
        var organic := items[i];
        var organicString := organic.title + " " + organic.snippet + " \n\n";
        organicString := Take(organicString, 2000);
        FoldStep(heading, items, i, OrganicEntry, text);
        text := text + organicString;
        MapStep(old(ref.sourceUrl), items, i, OrganicLink, ref.sourceUrl);
        ref.sourceUrl := ref.sourceUrl + [organic.link];
        i := i + 1;
      }
      assert items[..i] == items;
    }
  }

  method RollOutGitHubUser(o: Option<GitHubUserOutput>, ref: Reference) returns (text: string)
    modifies ref`sourceUrl
    ensures text == GitHubUserBlock(o)
    ensures ref.sourceUrl == old(ref.sourceUrl) + GitHubUserUrls(o)
  {
    text := "";
    if o.Some? {
      EmptyAppend(GitHubUserHeading);
      text := text + GitHubUserHeading;
      var gh := o.value;
      text := text + GitHubUserText(gh);
      ref.sourceUrl := ref.sourceUrl + [GitHubPrefix + gh.login];
    }
  }

  method RollOutGitHubRepo(o: Option<GitHubRepoOutput>, ref: Reference) returns (text: string)
    modifies ref`sourceUrl
    ensures text == GitHubRepoBlock(o)
    ensures ref.sourceUrl == old(ref.sourceUrl) + GitHubRepoUrls(o)
  {
    text := "";
    if o.Some? {
      EmptyAppend(GitHubRepoHeading);
      text := text + GitHubRepoHeading;
      var gh := o.value;
      text := text + GitHubRepoText(gh);
      ref.sourceUrl := ref.sourceUrl + [GitHubPrefix + gh.fullName];
    }
  }

  method RollOutGitHubOrg(o: Option<GitHubOrgOutput>, ref: Reference) returns (text: string)
    modifies ref`sourceUrl
    ensures text == GitHubOrgBlock(o)
    ensures ref.sourceUrl == old(ref.sourceUrl) + GitHubOrgUrls(o)
  {
    text := "";
    if o.Some? {
      EmptyAppend(GitHubOrgHeading);
      text := text + GitHubOrgHeading;
      var gh := o.value;
      text := text + GitHubOrgText(gh);
      ref.sourceUrl := ref.sourceUrl + [GitHubPrefix + gh.login];
    }
  }

  method RollOutGitHubLanguage(o: Option<GitHubLanguageOutput>, ref: Reference) returns (text: string)
    modifies ref`sourceUrl
    ensures text == GitHubLanguageBlock(o)
    ensures ref.sourceUrl == old(ref.sourceUrl) + GitHubLanguageUrls(o)
  {
    text := "";
    if o.Some? {
      var items := o.value.results;
      EmptyAppend(GitHubLanguageHeading);
      text := text + GitHubLanguageHeading;
      ghost var heading := text;
      var i := 0;
      while i < |items|
        invariant 0 <= i <= |items|
        invariant text == heading + ConcatMap(items[..i], GitHubLanguageEntry)
        invariant ref.sourceUrl == old(ref.sourceUrl) + MapSeq(items[..i], GitHubLanguageLink)
      {
        var gh := items[i];
        var entry := GitHubLanguageEntry(gh);
        FoldStep(heading, items, i, GitHubLanguageEntry, text);
        text := text + entry;
        MapStep(old(ref.sourceUrl), items, i, GitHubLanguageLink, ref.sourceUrl);
        ref.sourceUrl := ref.sourceUrl + [gh.url];
        i := i + 1;
      }
      assert items[..i] == items;
    }
  }

  /** The arXiv block adds text only; the sentinel text gives the heading alone. */
  method RollOutArxiv(o: Option<ArxivOutput>) returns (text: string)
    ensures text == ArxivBlock(o)
  {
    text := "";
    if o.Some? {
      EmptyAppend(ArxivHeading);
      text := text + ArxivHeading;
      ghost var heading := text;
      if o.value.results.Papers? {
        var docs := o.value.results.docs;
        var i := 0;
        while i < |docs|
          invariant 0 <= i <= |docs|
          invariant text == heading + ConcatMap(docs[..i], ArxivEntry)
        {
          var axv := docs[i];
          var arxivString := ArxivEntry(axv);
          FoldStep(heading, docs, i, ArxivEntry, text);
          text := text + arxivString;
          i := i + 1;
        }
        assert docs[..i] == docs;
      }
    }
  }

  method RollOutTavily(o: Option<TavilyQueryOutput>, ref: Reference) returns (text: string)
    modifies ref`sourceUrl
    ensures text == TavilyBlock(o)
    ensures ref.sourceUrl == old(ref.sourceUrl) + TavilyUrls(o)
  {
    text := "";
    if o.Some? {
      var items := o.value.results;
      EmptyAppend(TavilyHeading);
      text := text + TavilyHeading;
      ghost var heading := text;
      var i := 0;
      while i < |items|
        invariant 0 <= i <= |items|
        invariant text == heading + ConcatMap(items[..i], TavilyEntry)
        invariant ref.sourceUrl == old(ref.sourceUrl) + MapSeq(items[..i], TavilyLink)
      {
        var tav := items[i];
        var tavilyString := "Title: " + tav.title + " Content: " + tav.content + " \n\n";
        tavilyString := Take(tavilyString, 500);
        FoldStep(heading, items, i, TavilyEntry, text);
        text := text + tavilyString;
        MapStep(old(ref.sourceUrl), items, i, TavilyLink, ref.sourceUrl);
        ref.sourceUrl := ref.sourceUrl + [tav.url];
        i := i + 1;
      }
      assert items[..i] == items;
    }
  }
}
