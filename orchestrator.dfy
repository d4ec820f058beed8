/**
 * The tool dispatcher of backend/src/tools/orchestrator.py: given one
 * section's sparse query record and the query's classification, it runs
 * each tool whose query is present and whose name the classification's
 * allow-list holds, one after another in a fixed order, and collects the
 * results in a fresh sparse output record.
 *
 * Each wrapper catches the errors of its own request, but builds its
 * client (the search client, the HTTPS connection, the GitHub inspector)
 * outside that guard, so a call may still raise. A raise ends the dispatch
 * at once: the remaining tools are not called and no record is returned.
 */
module Orchestrator {
  import opened Wrappers
  import opened Text
  import opened Models

  /** What one tool call does: it raised, or it answered. */
  datatype ToolCall<R> = Raised | Answered(answer: R)

  /** The nine lookups the dispatcher can call. */
  datatype ToolSuite = ToolSuite(
    duckduckgo: DuckDuckGoQuery -> ToolCall<seq<DuckDuckGoOutput>>,
    exa: ExaQuery -> ToolCall<seq<ExaOutput>>,
    serper: SerperQuery -> ToolCall<SerperQueryOutput>,
    githubUser: GitHubUserQuery -> ToolCall<GitHubUserOutput>,
    githubRepo: GitHubRepoQuery -> ToolCall<GitHubRepoOutput>,
    githubOrg: GitHubOrgQuery -> ToolCall<GitHubOrgOutput>,
    githubLanguage: GitHubLanguageQuery -> ToolCall<GitHubLanguageOutput>,
    arxiv: ArxivQuery -> ToolCall<ArxivOutput>,
    tavily: TavilyQuery -> ToolCall<TavilyQueryOutput>)

  /** One gated call: the tool's answer when its query is present, it is allowed and it answers; otherwise no output. */
  function Gate<Q, R>(query: Option<Q>, allowed: bool, tool: Q -> ToolCall<R>): (r: Option<R>)
    ensures r.Some? <==> query.Some? && allowed && tool(query.value).Answered?
    ensures r.Some? ==> r.value == tool(query.value).answer
  {
    if query.Some? && allowed then
      match tool(query.value)
      case Raised => None
      case Answered(v) => Some(v)
    else None
  }

  /** Whether one gated call is made and raises. */
  predicate GateRaises<Q, R>(query: Option<Q>, allowed: bool, tool: Q -> ToolCall<R>)
  {
    query.Some? && allowed && tool(query.value).Raised?
  }

  /** The record after the first `k` steps when none of them raised: the fields of those steps gated, the rest empty. */
  function FieldsUpTo(tools: ToolSuite, q: ToolQueryState, names: seq<string>, k: nat): ToolOutputState
  {
    ToolOutputState(
      duckduckgoOutput := if 0 < k then Gate(q.duckduckgoQuery, ToolName(DuckDuckGo) in names, tools.duckduckgo) else None,
      exaOutput := if 1 < k then Gate(q.exaQuery, ToolName(Exa) in names, tools.exa) else None,
      serperOutput := if 2 < k then Gate(q.serperQuery, ToolName(Serper) in names, tools.serper) else None,
      githubUserOutput := if 3 < k then Gate(q.githubUserQuery, ToolName(GitHubUser) in names, tools.githubUser) else None,
      githubRepoOutput := if 4 < k then Gate(q.githubRepoQuery, ToolName(GitHubRepo) in names, tools.githubRepo) else None,
      githubOrgOutput := if 5 < k then Gate(q.githubOrgQuery, ToolName(GitHubOrg) in names, tools.githubOrg) else None,
      githubLanguageOutput := if 6 < k then Gate(q.githubLanguageQuery, ToolName(GitHubLanguage) in names, tools.githubLanguage) else None,
      arxivOutput := if 7 < k then Gate(q.arxivQuery, ToolName(Arxiv) in names, tools.arxiv) else None,
      tavilyOutput := if 8 < k then Gate(q.tavilyQuery, ToolName(Tavily) in names, tools.tavily) else None)
  }

  /** The record the dispatch fills when the allow-list is `names` and no call raises. */
  function Fields(tools: ToolSuite, q: ToolQueryState, names: seq<string>): ToolOutputState
  {
    FieldsUpTo(tools, q, names, |ToolOrder|)
  }

  /** Whether tool `t` raises on the payload the query record holds for it. */
  predicate CallRaises(tools: ToolSuite, q: ToolQueryState, t: Tool)
  {
    match t
    case DuckDuckGo => q.duckduckgoQuery.Some? && tools.duckduckgo(q.duckduckgoQuery.value).Raised?
    case Exa => q.exaQuery.Some? && tools.exa(q.exaQuery.value).Raised?
    case Serper => q.serperQuery.Some? && tools.serper(q.serperQuery.value).Raised?
    case GitHubUser => q.githubUserQuery.Some? && tools.githubUser(q.githubUserQuery.value).Raised?
    case GitHubRepo => q.githubRepoQuery.Some? && tools.githubRepo(q.githubRepoQuery.value).Raised?
    case GitHubOrg => q.githubOrgQuery.Some? && tools.githubOrg(q.githubOrgQuery.value).Raised?
    case GitHubLanguage => q.githubLanguageQuery.Some? && tools.githubLanguage(q.githubLanguageQuery.value).Raised?
    case Arxiv => q.arxivQuery.Some? && tools.arxiv(q.arxivQuery.value).Raised?
    case Tavily => q.tavilyQuery.Some? && tools.tavily(q.tavilyQuery.value).Raised?
  }

  /** Whether the dispatcher calls tool `t` when the allow-list is `names`. */
  predicate RunsWith(q: ToolQueryState, names: seq<string>, t: Tool)
  {
    HasQuery(q, t) && ToolName(t) in names
  }

  /** Whether the dispatcher calls tool `t` for a query of classification `typeOfQuery`. */
  predicate Runs(q: ToolQueryState, typeOfQuery: string, t: Tool)
  {
    RunsWith(q, QueryTypeTools(typeOfQuery), t)
  }

  /** Whether tool `t` is called under allow-list `names` (when reached) and raises. */
  predicate RaisesWith(tools: ToolSuite, q: ToolQueryState, names: seq<string>, t: Tool)
  {
    RunsWith(q, names, t) && CallRaises(tools, q, t)
  }

  /** Whether some tool that runs for classification `typeOfQuery` raises. */
  predicate SomeToolRaises(tools: ToolSuite, q: ToolQueryState, typeOfQuery: string)
  {
    exists t :: RaisesWith(tools, q, QueryTypeTools(typeOfQuery), t)
  }

  /** Position of a tool in the fixed visiting order. */
  function Rank(t: Tool): (r: nat)
    ensures r < |ToolOrder| && ToolOrder[r] == t
  {
    match t
    case DuckDuckGo => 0
    case Exa => 1
    case Serper => 2
    case GitHubUser => 3
    case GitHubRepo => 4
    case GitHubOrg => 5
    case GitHubLanguage => 6
    case Arxiv => 7
    case Tavily => 8
  }

  /** `ts` lists tools strictly in the visiting order, so none twice. */
  predicate InOrder(ts: seq<Tool>)
  {
    forall i, j :: 0 <= i < j < |ts| ==> Rank(ts[i]) < Rank(ts[j])
  }

  /** The call log entry of one step: `t` when the step called its tool, nothing otherwise. */
  function Record(ran: bool, t: Tool): (r: seq<Tool>)
    ensures forall u :: u in r <==> ran && u == t
  {
    if ran then [t] else []
  }

  /** The tool visited at step `k` of the fixed order. */
  function ToolAt(k: nat): (t: Tool)
    requires k < |ToolOrder|
    ensures t == ToolOrder[k] && Rank(t) == k
  {
    if k == 0 then DuckDuckGo
    else if k == 1 then Exa
    else if k == 2 then Serper
    else if k == 3 then GitHubUser
    else if k == 4 then GitHubRepo
    else if k == 5 then GitHubOrg
    else if k == 6 then GitHubLanguage
    else if k == 7 then Arxiv
    else Tavily
  }

  /** Whether one of the first `k` steps calls its tool and that call raises. */
  predicate RaisedUpTo(tools: ToolSuite, q: ToolQueryState, names: seq<string>, k: nat)
    requires k <= |ToolOrder|
  {
    k > 0 && (RaisedUpTo(tools, q, names, k - 1) || RaisesWith(tools, q, names, ToolAt(k - 1)))
  }

  /** The result of a dispatch under allow-list `names`: no record when a call raises, the filled record otherwise. */
  function DispatchWith(tools: ToolSuite, q: ToolQueryState, names: seq<string>): Option<ToolOutputState>
  {
    if RaisedUpTo(tools, q, names, |ToolOrder|) then None else Some(Fields(tools, q, names))
  }

  /** What `get_tool_output` returns for a classification: the dispatch under that classification's allow-list. */
  function Dispatch(tools: ToolSuite, q: ToolQueryState, typeOfQuery: string): Option<ToolOutputState>
  {
    DispatchWith(tools, q, QueryTypeTools(typeOfQuery))
  }

  /** The tools called by the first `k` steps of a dispatch under allow-list `names` in which nothing raises, in calling order. */
  function InvokedUpTo(q: ToolQueryState, names: seq<string>, k: nat): seq<Tool>
    requires k <= |ToolOrder|
  {
    if k == 0 then []
    else InvokedUpTo(q, names, k - 1) + Record(RunsWith(q, names, ToolAt(k - 1)), ToolAt(k - 1))
  }

  /** The tools a whole dispatch calls when nothing raises, in calling order. */
  function Invoked(q: ToolQueryState, names: seq<string>): seq<Tool>
  {
    InvokedUpTo(q, names, |ToolOrder|)
  }

  /** The tools the first `k` steps actually call: the calls stop after the first one that raises. */
  function AttemptedUpTo(tools: ToolSuite, q: ToolQueryState, names: seq<string>, k: nat): seq<Tool>
    requires k <= |ToolOrder|
  {
    if k == 0 then []
    else if RaisedUpTo(tools, q, names, k - 1) then AttemptedUpTo(tools, q, names, k - 1)
    else AttemptedUpTo(tools, q, names, k - 1) + Record(RunsWith(q, names, ToolAt(k - 1)), ToolAt(k - 1))
  }

  /** The tools a whole dispatch actually calls, in calling order. */
  function Attempted(tools: ToolSuite, q: ToolQueryState, names: seq<string>): seq<Tool>
  {
    AttemptedUpTo(tools, q, names, |ToolOrder|)
  }

  // ---------------------------------------------------------------------
  // The calls a dispatch makes
  // ---------------------------------------------------------------------

  /** The first `k` steps call exactly the running tools that come before position `k`. */
  lemma {:induction false} InvokedUpToMembers(q: ToolQueryState, names: seq<string>, k: nat)
    requires k <= |ToolOrder|
    ensures forall t :: t in InvokedUpTo(q, names, k) <==> RunsWith(q, names, t) && Rank(t) < k
  {
    if k > 0 {
      InvokedUpToMembers(q, names, k - 1);
    }
  }

  /** A step's entry, appended to a log of tools that all come before it, keeps the log in the visiting order. */
  lemma RecordKeepsOrder(log: seq<Tool>, ran: bool, t: Tool)
    requires InOrder(log) && forall u :: u in log ==> Rank(u) < Rank(t)
    ensures InOrder(log + Record(ran, t))
  {
    var s := log + Record(ran, t);
    forall i, j | 0 <= i < j < |s| ensures Rank(s[i]) < Rank(s[j]) {
      if j >= |log| {
        assert s[i] in log;
      }
    }
  }

  /** The first `k` steps call their tools in the fixed order, so none twice. */
  lemma {:induction false} InvokedUpToInOrder(q: ToolQueryState, names: seq<string>, k: nat)
    requires k <= |ToolOrder|
    ensures InOrder(InvokedUpTo(q, names, k))
    ensures forall u :: u in InvokedUpTo(q, names, k) ==> Rank(u) < k
  {
    if k > 0 {
      InvokedUpToInOrder(q, names, k - 1);
      var t := ToolAt(k - 1);
      RecordKeepsOrder(InvokedUpTo(q, names, k - 1), RunsWith(q, names, t), t);
    }
  }

  /** When no tool runs, no step records a call. */
  lemma {:induction false} NothingRunsNothingInvoked(q: ToolQueryState, names: seq<string>, k: nat)
    requires k <= |ToolOrder| && forall t :: !RunsWith(q, names, t)
    ensures InvokedUpTo(q, names, k) == []
  {
    if k > 0 {
      NothingRunsNothingInvoked(q, names, k - 1);
    }
  }

  /** A dispatch in which nothing raises calls exactly the tools that run, each at most once, in the fixed order. */
  lemma InvokedSpec(q: ToolQueryState, names: seq<string>)
    ensures forall t :: t in Invoked(q, names) <==> RunsWith(q, names, t)
    ensures InOrder(Invoked(q, names))
  {
    InvokedUpToMembers(q, names, |ToolOrder|);
    InvokedUpToInOrder(q, names, |ToolOrder|);
  }

  /** The first `k` steps raise exactly when some running tool placed before position `k` raises. */
  lemma {:induction false} RaisedUpToIff(tools: ToolSuite, q: ToolQueryState, names: seq<string>, k: nat)
    requires k <= |ToolOrder|
    ensures RaisedUpTo(tools, q, names, k) <==> exists t :: Rank(t) < k && RaisesWith(tools, q, names, t)
  {
    if k > 0 {
      RaisedUpToIff(tools, q, names, k - 1);
      var last := ToolAt(k - 1);
      forall t | Rank(t) == k - 1 ensures t == last {
        assert ToolOrder[Rank(t)] == t;
      }
    }
  }

  /** Once a step has raised, later steps call nothing more. */
  lemma {:induction false} RaiseIsFinal(tools: ToolSuite, q: ToolQueryState, names: seq<string>, j: nat, k: nat)
    requires j <= k <= |ToolOrder| && RaisedUpTo(tools, q, names, j)
    ensures RaisedUpTo(tools, q, names, k)
    ensures AttemptedUpTo(tools, q, names, k) == AttemptedUpTo(tools, q, names, j)
    decreases k - j
  {
    if j < k {
      RaiseIsFinal(tools, q, names, j + 1, k);
    }
  }

  /**
   * The calls actually made are a prefix of the calls of a dispatch in which
   * nothing raises, and all of them when nothing raised; a call that raised
   * is the last one made.
   */
  lemma {:induction false} AttemptedUpToSpec(tools: ToolSuite, q: ToolQueryState, names: seq<string>, k: nat)
    requires k <= |ToolOrder|
    ensures AttemptedUpTo(tools, q, names, k) <= InvokedUpTo(q, names, k)
    ensures !RaisedUpTo(tools, q, names, k) ==> AttemptedUpTo(tools, q, names, k) == InvokedUpTo(q, names, k)
    ensures RaisedUpTo(tools, q, names, k) ==>
      var a := AttemptedUpTo(tools, q, names, k); |a| > 0 && CallRaises(tools, q, a[|a| - 1])
    ensures forall i :: 0 <= i < |AttemptedUpTo(tools, q, names, k)| - 1 ==>
      !CallRaises(tools, q, AttemptedUpTo(tools, q, names, k)[i])
    ensures !RaisedUpTo(tools, q, names, k) ==>
      forall i :: 0 <= i < |AttemptedUpTo(tools, q, names, k)| ==> !CallRaises(tools, q, AttemptedUpTo(tools, q, names, k)[i])
  {
    if k > 0 {
      AttemptedUpToSpec(tools, q, names, k - 1);
      var prev := AttemptedUpTo(tools, q, names, k - 1);
      var t := ToolAt(k - 1);
      if !RaisedUpTo(tools, q, names, k - 1) {
        assert AttemptedUpTo(tools, q, names, k) == prev + Record(RunsWith(q, names, t), t);
      }
    }
  }

  /** A call that raises at step `k` ends the dispatch: no record, and the calls are those of the first `k + 1` steps. */
  lemma RaiseEndsDispatch(tools: ToolSuite, q: ToolQueryState, names: seq<string>, k: nat)
    requires k < |ToolOrder| && !RaisedUpTo(tools, q, names, k) && RaisesWith(tools, q, names, ToolAt(k))
    ensures DispatchWith(tools, q, names) == None
    ensures Attempted(tools, q, names) == InvokedUpTo(q, names, k + 1)
  {
    AttemptedUpToSpec(tools, q, names, k);
    RaiseIsFinal(tools, q, names, k + 1, |ToolOrder|);
  }

  /** A step whose call does not raise leaves the dispatch unraised. */
  lemma NoRaiseStep(tools: ToolSuite, q: ToolQueryState, names: seq<string>, k: nat)
    requires k < |ToolOrder| && !RaisedUpTo(tools, q, names, k) && !RaisesWith(tools, q, names, ToolAt(k))
    ensures !RaisedUpTo(tools, q, names, k + 1)
  {
  }

  /**
   * One `if <query> and "<name>" in tools_for_type:` step of the dispatcher,
   * the `k`-th in the fixed order: calls `tool` when the query is present
   * and the tool's name is allowed, records the call, and reports whether
   * the call raised.
   */
  method CallIfAllowed<Q, R>(q: ToolQueryState, query: Option<Q>, toolsForType: seq<string>, tool: Q -> ToolCall<R>,
                             t: Tool, k: nat, calls: seq<Tool>)
    returns (result: Option<R>, raised: bool, calls': seq<Tool>)
    requires k < |ToolOrder| && t == ToolAt(k) && (query.Some? <==> HasQuery(q, t))
    requires calls == InvokedUpTo(q, toolsForType, k)
    ensures result == Gate(query, ToolName(t) in toolsForType, tool)
    ensures raised == GateRaises(query, ToolName(t) in toolsForType, tool)
    ensures calls' == InvokedUpTo(q, toolsForType, k + 1)
  {
    result := None;
    raised := false;
    calls' := calls;
    if query.Some? && ToolName(t) in toolsForType {
      calls' := calls + [t];
      match tool(query.value)
      case Raised => raised := true;
      case Answered(v) => result := Some(v);
    }
  }

  /**
   * The DuckDuckGo, Exa and Serper steps of the dispatcher (orchestrator.py lines 36-43).
   * Continues a dispatch whose first 0 steps did not raise; on a raise
   * the whole dispatch has no record and its calls end here.
   */
  method RunSearchTools(tools: ToolSuite, q: ToolQueryState, toolsForType: seq<string>, record: ToolOutputState, calls: seq<Tool>)
    returns (record': ToolOutputState, raised: bool, calls': seq<Tool>)
    requires !RaisedUpTo(tools, q, toolsForType, 0)
    requires record == FieldsUpTo(tools, q, toolsForType, 0) && calls == InvokedUpTo(q, toolsForType, 0)
    ensures raised ==> DispatchWith(tools, q, toolsForType) == None && calls' == Attempted(tools, q, toolsForType)
    ensures !raised ==> !RaisedUpTo(tools, q, toolsForType, 3)
    ensures !raised ==> record' == FieldsUpTo(tools, q, toolsForType, 3) && calls' == InvokedUpTo(q, toolsForType, 3)
  {
    record' := record;
    calls' := calls;
    var duckduckgoResult, exaResult, serperResult;
    duckduckgoResult, raised, calls' := CallIfAllowed(q, q.duckduckgoQuery, toolsForType, tools.duckduckgo, DuckDuckGo, 0, calls');
    if raised {
      RaiseEndsDispatch(tools, q, toolsForType, 0);
      return;
    }
    NoRaiseStep(tools, q, toolsForType, 0);
    record' := record'.(duckduckgoOutput := duckduckgoResult);
    exaResult, raised, calls' := CallIfAllowed(q, q.exaQuery, toolsForType, tools.exa, Exa, 1, calls');
    if raised {
      RaiseEndsDispatch(tools, q, toolsForType, 1);
      return;
    }
    NoRaiseStep(tools, q, toolsForType, 1);
    record' := record'.(exaOutput := exaResult);
    serperResult, raised, calls' := CallIfAllowed(q, q.serperQuery, toolsForType, tools.serper, Serper, 2, calls');
    if raised {
      RaiseEndsDispatch(tools, q, toolsForType, 2);
      return;
    }
    NoRaiseStep(tools, q, toolsForType, 2);
    record' := record'.(serperOutput := serperResult);
  }

  /**
   * The four GitHub steps, each building its own inspector (orchestrator.py lines 45-67).
   * Continues a dispatch whose first 3 steps did not raise; on a raise
   * the whole dispatch has no record and its calls end here.
   */
  method RunGitHubTools(tools: ToolSuite, q: ToolQueryState, toolsForType: seq<string>, record: ToolOutputState, calls: seq<Tool>)
    returns (record': ToolOutputState, raised: bool, calls': seq<Tool>)
    requires !RaisedUpTo(tools, q, toolsForType, 3)
    requires record == FieldsUpTo(tools, q, toolsForType, 3) && calls == InvokedUpTo(q, toolsForType, 3)
    ensures raised ==> DispatchWith(tools, q, toolsForType) == None && calls' == Attempted(tools, q, toolsForType)
    ensures !raised ==> !RaisedUpTo(tools, q, toolsForType, 7)
    ensures !raised ==> record' == FieldsUpTo(tools, q, toolsForType, 7) && calls' == InvokedUpTo(q, toolsForType, 7)
  {
    record' := record;
    calls' := calls;
    var githubUserResult, githubRepoResult, githubOrgResult, githubLanguageResult;
    githubUserResult, raised, calls' := CallIfAllowed(q, q.githubUserQuery, toolsForType, tools.githubUser, GitHubUser, 3, calls');
    if raised {
      RaiseEndsDispatch(tools, q, toolsForType, 3);
      return;
    }
    NoRaiseStep(tools, q, toolsForType, 3);
    record' := record'.(githubUserOutput := githubUserResult);
    githubRepoResult, raised, calls' := CallIfAllowed(q, q.githubRepoQuery, toolsForType, tools.githubRepo, GitHubRepo, 4, calls');
    if raised {
      RaiseEndsDispatch(tools, q, toolsForType, 4);
      return;
    }
    NoRaiseStep(tools, q, toolsForType, 4);
    record' := record'.(githubRepoOutput := githubRepoResult);
    githubOrgResult, raised, calls' := CallIfAllowed(q, q.githubOrgQuery, toolsForType, tools.githubOrg, GitHubOrg, 5, calls');
    if raised {
      RaiseEndsDispatch(tools, q, toolsForType, 5);
      return;
    }
    NoRaiseStep(tools, q, toolsForType, 5);
    record' := record'.(githubOrgOutput := githubOrgResult);
    githubLanguageResult, raised, calls' := CallIfAllowed(q, q.githubLanguageQuery, toolsForType, tools.githubLanguage, GitHubLanguage, 6, calls');
    if raised {
      RaiseEndsDispatch(tools, q, toolsForType, 6);
      return;
    }
    NoRaiseStep(tools, q, toolsForType, 6);
    record' := record'.(githubLanguageOutput := githubLanguageResult);
  }

  /**
   * The arXiv and Tavily steps (orchestrator.py lines 69-73).
   * Continues a dispatch whose first 7 steps did not raise; on a raise
   * the whole dispatch has no record and its calls end here.
   */
  method RunPaperAndTavilyTools(tools: ToolSuite, q: ToolQueryState, toolsForType: seq<string>, record: ToolOutputState, calls: seq<Tool>)
    returns (record': ToolOutputState, raised: bool, calls': seq<Tool>)
    requires !RaisedUpTo(tools, q, toolsForType, 7)
    requires record == FieldsUpTo(tools, q, toolsForType, 7) && calls == InvokedUpTo(q, toolsForType, 7)
    ensures raised ==> DispatchWith(tools, q, toolsForType) == None && calls' == Attempted(tools, q, toolsForType)
    ensures !raised ==> !RaisedUpTo(tools, q, toolsForType, 9)
    ensures !raised ==> record' == FieldsUpTo(tools, q, toolsForType, 9) && calls' == InvokedUpTo(q, toolsForType, 9)
  {
    record' := record;
    calls' := calls;
    var arxivResult, tavilyResult;
    arxivResult, raised, calls' := CallIfAllowed(q, q.arxivQuery, toolsForType, tools.arxiv, Arxiv, 7, calls');
    if raised {
      RaiseEndsDispatch(tools, q, toolsForType, 7);
      return;
    }
    NoRaiseStep(tools, q, toolsForType, 7);
    record' := record'.(arxivOutput := arxivResult);
    tavilyResult, raised, calls' := CallIfAllowed(q, q.tavilyQuery, toolsForType, tools.tavily, Tavily, 8, calls');
    if raised {
      RaiseEndsDispatch(tools, q, toolsForType, 8);
      return;
    }
    NoRaiseStep(tools, q, toolsForType, 8);
    record' := record'.(tavilyOutput := tavilyResult);
  }

  /**
   * The body of `get_tool_output` once the allow-list is known: starts from
   * an all-empty record and, tool by tool in the fixed order, calls each
   * tool that has a query and is allowed. A call that raises ends the
   * dispatch without a record. The second result logs the calls made, in
   * the order made.
   */
  method RunAllowedTools(tools: ToolSuite, q: ToolQueryState, toolsForType: seq<string>)
    returns (output: Option<ToolOutputState>, calls: seq<Tool>)
    ensures output == DispatchWith(tools, q, toolsForType)
    ensures calls == Attempted(tools, q, toolsForType)
  {
    var record := ToolOutputState();
    calls := [];
    var raised;
    record, raised, calls := RunSearchTools(tools, q, toolsForType, record, calls);
    if raised {
      return None, calls;
    }
    record, raised, calls := RunGitHubTools(tools, q, toolsForType, record, calls);
    if raised {
      return None, calls;
    }
    record, raised, calls := RunPaperAndTavilyTools(tools, q, toolsForType, record, calls);
    if raised {
      return None, calls;
    }
    AttemptedUpToSpec(tools, q, toolsForType, |ToolOrder|);
    output := Some(record);
  }

  /** `get_tool_output`: looks up the classification's allow-list (empty when unknown) and runs the allowed tools. */
  method GetToolOutput(tools: ToolSuite, q: ToolQueryState, typeOfQuery: string)
    returns (output: Option<ToolOutputState>, calls: seq<Tool>)
    ensures output == Dispatch(tools, q, typeOfQuery)
    ensures calls == Attempted(tools, q, QueryTypeTools(typeOfQuery))
  {
    var toolsForType := QueryTypeTools(typeOfQuery);
    output, calls := RunAllowedTools(tools, q, toolsForType);
  }

  // ---------------------------------------------------------------------
  // What the dispatcher promises
  // ---------------------------------------------------------------------

  /** The dispatch gives no record exactly when some tool that runs raises. */
  lemma DispatchNoneIffSomeToolRaises(tools: ToolSuite, q: ToolQueryState, typeOfQuery: string)
    ensures Dispatch(tools, q, typeOfQuery).None? <==> SomeToolRaises(tools, q, typeOfQuery)
  {
    RaisedUpToIff(tools, q, QueryTypeTools(typeOfQuery), |ToolOrder|);
  }

  /** When the dispatch gives a record, a tool's field is set exactly when its query is present and the classification allows it. */
  lemma FieldSetIffRunsTool(tools: ToolSuite, q: ToolQueryState, typeOfQuery: string, t: Tool)
    requires Dispatch(tools, q, typeOfQuery).Some?
    ensures HasOutput(Dispatch(tools, q, typeOfQuery).value, t) <==> Runs(q, typeOfQuery, t)
  {
    RaisedUpToIff(tools, q, QueryTypeTools(typeOfQuery), |ToolOrder|);
    assert !RaisesWith(tools, q, QueryTypeTools(typeOfQuery), t);
  }

  /** An unknown classification allows nothing: no tool runs, no call is made and the record stays all-empty. */
  lemma UnknownClassificationRunsNothing(tools: ToolSuite, q: ToolQueryState, typeOfQuery: string)
    requires typeOfQuery !in QueryTypeToolsTable
    ensures Dispatch(tools, q, typeOfQuery) == Some(ToolOutputState())
    ensures forall t :: !Runs(q, typeOfQuery, t)
    ensures Attempted(tools, q, QueryTypeTools(typeOfQuery)) == []
  {
    var names := QueryTypeTools(typeOfQuery);
    RaisedUpToIff(tools, q, names, |ToolOrder|);
    AttemptedUpToSpec(tools, q, names, |ToolOrder|);
    NothingRunsNothingInvoked(q, names, |ToolOrder|);
  }

  /** GitHub results appear only for the programming classification. */
  lemma GitHubOutputOnlyForProgramming(tools: ToolSuite, q: ToolQueryState, typeOfQuery: string, t: Tool)
    requires IsGitHub(t) && Dispatch(tools, q, typeOfQuery).Some? && HasOutput(Dispatch(tools, q, typeOfQuery).value, t)
    ensures typeOfQuery == "execution_programming_query"
  {
    GitHubOnlyForProgramming(typeOfQuery, t);
  }

  /** The query record with the payload for tool `t` removed. */
  function WithoutQuery(q: ToolQueryState, t: Tool): (r: ToolQueryState)
    ensures !HasQuery(r, t)
    ensures forall u :: u != t ==> HasQuery(r, u) == HasQuery(q, u)
  {
    match t
    case DuckDuckGo => q.(duckduckgoQuery := None)
    case Exa => q.(exaQuery := None)
    case Serper => q.(serperQuery := None)
    case GitHubUser => q.(githubUserQuery := None)
    case GitHubRepo => q.(githubRepoQuery := None)
    case GitHubOrg => q.(githubOrgQuery := None)
    case GitHubLanguage => q.(githubLanguageQuery := None)
    case Arxiv => q.(arxivQuery := None)
    case Tavily => q.(tavilyQuery := None)
  }

  /**
   * A query for a tool the classification does not allow is ignored: the
   * result, which tools run and which calls are made are as if it were
   * absent.
   */
  lemma DisallowedQueryIgnored(tools: ToolSuite, q: ToolQueryState, typeOfQuery: string, t: Tool)
    requires !Allowed(typeOfQuery, t)
    ensures Dispatch(tools, WithoutQuery(q, t), typeOfQuery) == Dispatch(tools, q, typeOfQuery)
    ensures forall u :: Runs(WithoutQuery(q, t), typeOfQuery, u) == Runs(q, typeOfQuery, u)
    ensures Attempted(tools, WithoutQuery(q, t), QueryTypeTools(typeOfQuery)) == Attempted(tools, q, QueryTypeTools(typeOfQuery))
  {
    var names := QueryTypeTools(typeOfQuery);
    var q' := WithoutQuery(q, t);
    forall u ensures RaisesWith(tools, q', names, u) == RaisesWith(tools, q, names, u) {
      if u != t {
        match t
        case DuckDuckGo =>
        case Exa =>
        case Serper =>
        case GitHubUser =>
        case GitHubRepo =>
        case GitHubOrg =>
        case GitHubLanguage =>
        case Arxiv =>
        case Tavily =>
      }
    }
    SameRunsSameAttempts(tools, q', q, names, |ToolOrder|);
  }

  /** Two query records on which the same tools run and raise make the same calls. */
  lemma {:induction false} SameRunsSameAttempts(tools: ToolSuite, q1: ToolQueryState, q2: ToolQueryState, names: seq<string>, k: nat)
    requires k <= |ToolOrder|
    requires forall u :: RunsWith(q1, names, u) == RunsWith(q2, names, u)
    requires forall u :: RaisesWith(tools, q1, names, u) == RaisesWith(tools, q2, names, u)
    ensures RaisedUpTo(tools, q1, names, k) == RaisedUpTo(tools, q2, names, k)
    ensures AttemptedUpTo(tools, q1, names, k) == AttemptedUpTo(tools, q2, names, k)
  {
    if k > 0 {
      SameRunsSameAttempts(tools, q1, q2, names, k - 1);
    }
  }
}
