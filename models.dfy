/**
 * The records of src/models/state.py and src/models/report.py: the five
 * query classifications and the classification-to-tools table, the sparse
 * per-tool query and output records, the section-keyed wrappers that join
 * the research stage to the writing stage, and the report pieces (Section,
 * DetailedSection, Header, Footer, Reference).
 */
module Models {
  import opened Wrappers

  // ---------------------------------------------------------------------
  // Query classification and the tool allow-list
  // ---------------------------------------------------------------------

  /** The five `type_of_query` literals. */
  datatype QueryType =
    | Factual
    | ComparativeEvaluative
    | ResearchOriented
    | ExecutionProgramming
    | IdeaGeneration

  /** The literal the source uses for each classification. */
  function Literal(q: QueryType): string
  {
    match q
    case Factual => "factual_query"
    case ComparativeEvaluative => "comparative_evaluative_query"
    case ResearchOriented => "research_oriented_query"
    case ExecutionProgramming => "execution_programming_query"
    case IdeaGeneration => "idea_generation"
  }

  /** Reads a classification literal back; any other text is no classification. */
  function ParseQueryType(s: string): (r: Option<QueryType>)
    ensures r.Some? ==> Literal(r.value) == s
  {
    if s == "factual_query" then Some(Factual)
    else if s == "comparative_evaluative_query" then Some(ComparativeEvaluative)
    else if s == "research_oriented_query" then Some(ResearchOriented)
    else if s == "execution_programming_query" then Some(ExecutionProgramming)
    else if s == "idea_generation" then Some(IdeaGeneration)
    else None
  }

  lemma ParseLiteral(q: QueryType)
    ensures ParseQueryType(Literal(q)) == Some(q)
  {
  }

  /** The nine lookup tools, in the order the dispatcher and the formatter visit them. */
  datatype Tool =
    | DuckDuckGo
    | Exa
    | Serper
    | GitHubUser
    | GitHubRepo
    | GitHubOrg
    | GitHubLanguage
    | Arxiv
    | Tavily

  /** The fixed visiting order of the tools. */
  const ToolOrder: seq<Tool> :=
    [DuckDuckGo, Exa, Serper, GitHubUser, GitHubRepo, GitHubOrg, GitHubLanguage, Arxiv, Tavily]

  /** The name under which a tool appears in the allow-list table. */
  function ToolName(t: Tool): string
  {
    match t
    case DuckDuckGo => "duckduckgo"
    case Exa => "exa"
    case Serper => "serper"
    case GitHubUser => "github_user"
    case GitHubRepo => "github_repo"
    case GitHubOrg => "github_org"
    case GitHubLanguage => "github_language"
    case Arxiv => "arxiv"
    case Tavily => "tavily"
  }

  predicate IsGitHub(t: Tool)
  {
    t == GitHubUser || t == GitHubRepo || t == GitHubOrg || t == GitHubLanguage
  }

  /** `QUERY_TYPE_TOOLS`: the tool names each classification may use. */
  const QueryTypeToolsTable: map<string, seq<string>> := map[
    "factual_query" := ["duckduckgo", "exa", "tavily"],
    "comparative_evaluative_query" := ["duckduckgo", "exa", "tavily", "serper"],
    "research_oriented_query" := ["arxiv", "exa", "tavily", "serper"],
    "execution_programming_query" :=
      ["duckduckgo", "exa", "tavily", "github_user", "github_repo", "github_org", "github_language"],
    "idea_generation" := ["duckduckgo", "exa"]
  ]

  /** `QUERY_TYPE_TOOLS.get(type_of_query, [])`: an unknown classification allows nothing. */
  function QueryTypeTools(typeOfQuery: string): (r: seq<string>)
    ensures typeOfQuery !in QueryTypeToolsTable ==> r == []
  {
    if typeOfQuery in QueryTypeToolsTable then QueryTypeToolsTable[typeOfQuery] else []
  }

  /** Whether tool `t` may run for a query of classification `typeOfQuery`. */
  predicate Allowed(typeOfQuery: string, t: Tool)
  {
    ToolName(t) in QueryTypeTools(typeOfQuery)
  }

  /** The table has exactly the five classification literals as keys. */
  lemma TableKeys()
    ensures QueryTypeToolsTable.Keys == set q: QueryType :: Literal(q)
  {
    var lits := set q: QueryType :: Literal(q);
    forall s | s in lits ensures s in QueryTypeToolsTable {
      var q :| Literal(q) == s;
      match q
      case Factual =>
      case ComparativeEvaluative =>
      case ResearchOriented =>
      case ExecutionProgramming =>
      case IdeaGeneration =>
    }
    assert Literal(Factual) in lits;
    assert Literal(ComparativeEvaluative) in lits;
    assert Literal(ResearchOriented) in lits;
    assert Literal(ExecutionProgramming) in lits;
    assert Literal(IdeaGeneration) in lits;
  }

  /** Exa is allowed for every one of the five classifications. */
  lemma ExaAlwaysAllowed(q: QueryType)
    ensures Allowed(Literal(q), Exa)
  {
    match q
    case Factual => assert QueryTypeTools(Literal(q))[1] == "exa";
    case ComparativeEvaluative => assert QueryTypeTools(Literal(q))[1] == "exa";
    case ResearchOriented => assert QueryTypeTools(Literal(q))[1] == "exa";
    case ExecutionProgramming => assert QueryTypeTools(Literal(q))[1] == "exa";
    case IdeaGeneration => assert QueryTypeTools(Literal(q))[1] == "exa";
  }

  /** The GitHub tools are allowed under the programming classification and under no other text. */
  lemma GitHubOnlyForProgramming(typeOfQuery: string, t: Tool)
    requires IsGitHub(t)
    ensures Allowed(typeOfQuery, t) <==> typeOfQuery == "execution_programming_query"
  {
    var names := QueryTypeTools(typeOfQuery);
    if typeOfQuery == "execution_programming_query" {
      assert names[3] == "github_user" && names[4] == "github_repo";
      assert names[5] == "github_org" && names[6] == "github_language";
    }
  }

  /** arXiv is allowed only for research-oriented queries. */
  lemma ArxivOnlyForResearch(typeOfQuery: string)
    ensures Allowed(typeOfQuery, Arxiv) <==> typeOfQuery == "research_oriented_query"
  {
    if typeOfQuery == "research_oriented_query" {
      assert QueryTypeTools(typeOfQuery)[0] == "arxiv";
    }
  }

  /** Serper is allowed only for comparative and research-oriented queries. */
  lemma SerperOnlyComparativeOrResearch(typeOfQuery: string)
    ensures Allowed(typeOfQuery, Serper)
        <==> typeOfQuery == "comparative_evaluative_query" || typeOfQuery == "research_oriented_query"
  {
    if typeOfQuery == "comparative_evaluative_query" || typeOfQuery == "research_oriented_query" {
      assert QueryTypeTools(typeOfQuery)[3] == "serper";
    }
  }

  /** Every name in the table is the name of one of the nine tools. */
  lemma TableNamesAreTools(typeOfQuery: string, name: string)
    requires name in QueryTypeTools(typeOfQuery)
    ensures exists t: Tool :: ToolName(t) == name
  {
    var names := QueryTypeTools(typeOfQuery);
    var i :| 0 <= i < |names| && names[i] == name;
    if name == "duckduckgo" { assert ToolName(DuckDuckGo) == name; }
    else if name == "exa" { assert ToolName(Exa) == name; }
    else if name == "serper" { assert ToolName(Serper) == name; }
    else if name == "github_user" { assert ToolName(GitHubUser) == name; }
    else if name == "github_repo" { assert ToolName(GitHubRepo) == name; }
    else if name == "github_org" { assert ToolName(GitHubOrg) == name; }
    else if name == "github_language" { assert ToolName(GitHubLanguage) == name; }
    else if name == "arxiv" { assert ToolName(Arxiv) == name; }
    else { assert ToolName(Tavily) == name; }
  }

  // ---------------------------------------------------------------------
  // Per-tool query payloads (only handed to the tools)
  // ---------------------------------------------------------------------

  datatype DuckDuckGoQuery = DuckDuckGoQuery(query: string)
  datatype ExaQuery = ExaQuery(query: string)
  datatype SerperQuery = SerperQuery(query: string)
  datatype GitHubUserQuery = GitHubUserQuery(username: string)
  datatype GitHubRepoQuery = GitHubRepoQuery(fullName: string)
  datatype GitHubOrgQuery = GitHubOrgQuery(orgName: string)
  datatype GitHubLanguageQuery = GitHubLanguageQuery(language: string)
  datatype ArxivQuery = ArxivQuery(query: string)
  datatype TavilyQuery = TavilyQuery(query: string)

  /** `ToolQueryState`: at most one query payload per tool; every field defaults to None. */
  datatype ToolQueryState = ToolQueryState(
    duckduckgoQuery: Option<DuckDuckGoQuery> := None,
    exaQuery: Option<ExaQuery> := None,
    serperQuery: Option<SerperQuery> := None,
    githubUserQuery: Option<GitHubUserQuery> := None,
    githubRepoQuery: Option<GitHubRepoQuery> := None,
    githubOrgQuery: Option<GitHubOrgQuery> := None,
    githubLanguageQuery: Option<GitHubLanguageQuery> := None,
    arxivQuery: Option<ArxivQuery> := None,
    tavilyQuery: Option<TavilyQuery> := None)

  /** Whether the query record holds a payload for tool `t`. */
  predicate HasQuery(q: ToolQueryState, t: Tool)
  {
    match t
    case DuckDuckGo => q.duckduckgoQuery.Some?
    case Exa => q.exaQuery.Some?
    case Serper => q.serperQuery.Some?
    case GitHubUser => q.githubUserQuery.Some?
    case GitHubRepo => q.githubRepoQuery.Some?
    case GitHubOrg => q.githubOrgQuery.Some?
    case GitHubLanguage => q.githubLanguageQuery.Some?
    case Arxiv => q.arxivQuery.Some?
    case Tavily => q.tavilyQuery.Some?
  }

  // ---------------------------------------------------------------------
  // Per-tool results
  // ---------------------------------------------------------------------

  datatype DuckDuckGoOutput = DuckDuckGoOutput(title: string, snippet: string, link: string)
  datatype ExaOutput = ExaOutput(url: string, highlights: seq<string>)
  datatype OrganicItem = OrganicItem(title: string, link: string, snippet: string)
  datatype SerperQueryOutput = SerperQueryOutput(organicResults: seq<OrganicItem>)
  datatype TavilyItem = TavilyItem(title: string, url: string, content: string)
  datatype TavilyQueryOutput = TavilyQueryOutput(results: seq<TavilyItem>)
  datatype GitHubUserOutput = GitHubUserOutput(
    login: string, name: Option<string>, publicRepos: int, followers: int,
    bio: Option<string>, location: Option<string>)
  datatype GitHubRepoOutput = GitHubRepoOutput(
    name: string, fullName: string, description: Option<string>, stars: int, forks: int,
    language: Option<string>, topics: seq<string>)
  datatype GitHubOrgOutput = GitHubOrgOutput(
    login: string, name: Option<string>, description: Option<string>, publicRepos: int,
    members: seq<string>)
  datatype GitHubRepoItem = GitHubRepoItem(name: string, fullName: string, stars: int, url: string)
  datatype GitHubLanguageOutput = GitHubLanguageOutput(results: seq<GitHubRepoItem>)
  datatype ArxivDoc = ArxivDoc(title: string, authors: seq<string>, summary: string, published: string)
  /** `Union[List[ArxivDoc], str]`: the parsed papers, or the no-result sentinel text. */
  datatype ArxivResults = Papers(docs: seq<ArxivDoc>) | NoResults(message: string)
  datatype ArxivOutput = ArxivOutput(results: ArxivResults)

  /** `ToolOutputState`: the results of every tool that actually ran; every field defaults to None. */
  datatype ToolOutputState = ToolOutputState(
    duckduckgoOutput: Option<seq<DuckDuckGoOutput>> := None,
    exaOutput: Option<seq<ExaOutput>> := None,
    serperOutput: Option<SerperQueryOutput> := None,
    tavilyOutput: Option<TavilyQueryOutput> := None,
    githubUserOutput: Option<GitHubUserOutput> := None,
    githubRepoOutput: Option<GitHubRepoOutput> := None,
    githubOrgOutput: Option<GitHubOrgOutput> := None,
    githubLanguageOutput: Option<GitHubLanguageOutput> := None,
    arxivOutput: Option<ArxivOutput> := None)

  /** Whether the output record holds a result for tool `t`. */
  predicate HasOutput(o: ToolOutputState, t: Tool)
  {
    match t
    case DuckDuckGo => o.duckduckgoOutput.Some?
    case Exa => o.exaOutput.Some?
    case Serper => o.serperOutput.Some?
    case GitHubUser => o.githubUserOutput.Some?
    case GitHubRepo => o.githubRepoOutput.Some?
    case GitHubOrg => o.githubOrgOutput.Some?
    case GitHubLanguage => o.githubLanguageOutput.Some?
    case Arxiv => o.arxivOutput.Some?
    case Tavily => o.tavilyOutput.Some?
  }

  /** A record with no output for any tool. */
  lemma DefaultOutputIsEmpty(t: Tool)
    ensures !HasOutput(ToolOutputState(), t)
  {
  }

  /** `QueryState`: one section's tool queries, tagged with the section's id. */
  datatype QueryState = QueryState(sectionId: string, queryState: ToolQueryState)

  /** `OutputState`: one section's tool outputs, tagged with the section's id (the join key). */
  datatype OutputState = OutputState(sectionId: string, outputState: ToolOutputState)

  // ---------------------------------------------------------------------
  // Report pieces
  // ---------------------------------------------------------------------

  /** `Section`; the id is a fresh uuid4 text chosen when the section is built. */
  datatype Section = Section(sectionId: string, name: string, description: string, research: bool, content: string)

  /** `DetailedSection`: what the section writer returns; it has no id and no research flag. */
  datatype DetailedSection = DetailedSection(name: string, description: string, content: string)

  /** `Header`: title and summary are both optional. */
  datatype Header = Header(title: Option<string> := None, summary: Option<string> := None)

  /** `Footer`: the conclusion is required. */
  datatype Footer = Footer(conclusion: string)

  /** The plain value `Reference.dict()` produces. */
  datatype ReferenceRecord = ReferenceRecord(sectionName: Option<string>, sectionId: Option<string>, sourceUrl: seq<string>)

  /** `Reference`: an object the formatter fills in place. */
  class Reference {
    var sectionName: Option<string>
    var sectionId: Option<string>
    var sourceUrl: seq<string>

    /** `Reference()`: no section name, no section id and a list of URLs of its own, empty. */
    constructor ()
      ensures sectionName == None && sectionId == None && sourceUrl == []
    {
      sectionName := None;
      sectionId := None;
      sourceUrl := [];
    }

    /** `Reference.dict()`: a snapshot of the current field values. */
    function Snapshot(): (r: ReferenceRecord)
      reads this
      ensures r.sectionName == sectionName && r.sectionId == sectionId && r.sourceUrl == sourceUrl
    {
      ReferenceRecord(sectionName, sectionId, sourceUrl)
    }
  }
}
