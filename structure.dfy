/**
 * The planning stage of the backend graph: backend/src/nodes/router.py,
 * backend/src/nodes/structure.py and backend/src/nodes/verification.py.
 *
 * Each node makes one language-model call and, when that call fails in any
 * way, answers with a fixed fallback instead. The calls are function
 * parameters returning `None` on failure.
 */
module Structure {
  import opened Wrappers
  import opened Text
  import opened Models

  /** The classification every failure of the router falls back to. */
  const FallbackQueryType := "factual_query"

  /**
   * `router_node`: the router chain's raw answer for the user's query, not
   * checked against the five classifications, or `factual_query` when the
   * call fails.
   */
  function RouterNode(query: Option<string>, router: Option<string> -> Option<string>): (typeOfQuery: string)
    ensures router(query).Some? ==> typeOfQuery == router(query).value
    ensures router(query).None? ==> typeOfQuery == FallbackQueryType
  {
    match router(query)
    case Some(answer) => answer
    case None => FallbackQueryType
  }

  /**
   * The router's fallback is a known classification, `factual_query`, and
   * it lets exactly DuckDuckGo, Exa and Tavily run.
   */
  lemma RouterFallbackIsKnown()
    ensures ParseQueryType(FallbackQueryType) == Some(Factual)
    ensures forall t: Tool :: Allowed(FallbackQueryType, t) <==> t == DuckDuckGo || t == Exa || t == Tavily
  {
    ParseLiteral(Factual);
    assert QueryTypeTools(FallbackQueryType) == ["duckduckgo", "exa", "tavily"];
  }

  /**
   * The router does not check its answer: an answer outside the five
   * classifications is passed on unchanged. The `type_of_query` field of
   * `ReportState` admits only the five literals, so the conversion the
   * pipeline makes after the section stage (backend/app/core/pipeline.py
   * line 85) rejects such an answer, and the task fails in the section
   * stage before any tool runs. Were it ever dispatched, it would allow no
   * tool.
   */
  lemma UncheckedRouterAnswer(query: Option<string>, router: Option<string> -> Option<string>, t: Tool)
    requires router(query).Some? && router(query).value !in QueryTypeToolsTable
    ensures RouterNode(query, router) == router(query).value
    ensures ParseQueryType(RouterNode(query, router)).None?
    ensures !Allowed(RouterNode(query, router), t)
  {
    TableKeys();
    assert forall q: QueryType :: Literal(q) in QueryTypeToolsTable;
  }

  /** The header chain: query, classification, reviewer feedback. */
  type HeaderChain = (Option<string>, Option<string>, string) -> Option<Header>

  /**
   * `header_writer_node`: the chain's title and summary, given the user's
   * feedback from the last review; an empty title and summary on failure.
   */
  function HeaderWriterNode(query: Option<string>, typeOfQuery: Option<string>, userFeedback: string,
                            chain: HeaderChain): (header: Header)
    ensures chain(query, typeOfQuery, userFeedback).Some? ==> header == chain(query, typeOfQuery, userFeedback).value
    ensures chain(query, typeOfQuery, userFeedback).None? ==> header == Header(Some(""), Some(""))
  {
    match chain(query, typeOfQuery, userFeedback)
    case Some(h) => Header(h.title, h.summary)
    case None => Header(Some(""), Some(""))
  }

  /** The section chain: query, classification, title, summary. */
  type SectionChain = (Option<string>, Option<string>, Option<string>, Option<string>) -> Option<seq<Section>>

  /**
   * `section_writer_node`: the chain's section list exactly as generated
   * (no bound on its length and no check that the ids differ), or an empty
   * list when there is no header or the call fails.
   */
  function SectionWriterNode(query: Option<string>, typeOfQuery: Option<string>, header: Option<Header>,
                             chain: SectionChain): (sections: seq<Section>)
    ensures header.None? ==> sections == []
    ensures header.Some? && chain(query, typeOfQuery, header.value.title, header.value.summary).Some? ==>
      sections == chain(query, typeOfQuery, header.value.title, header.value.summary).value
    ensures header.Some? && chain(query, typeOfQuery, header.value.title, header.value.summary).None? ==> sections == []
  {
    if header.None? then []
    else chain(query, typeOfQuery, header.value.title, header.value.summary).GetOr([])
  }

  /** One section as the footer chain sees it: name, description and content, with nothing after it. */
  function FooterEntry(s: Section): string
  {
    "name: " + s.name + " description: " + s.description + " content: " + s.content
  }

  /** The footer context: every section's entry, in list order, with no separator between sections. */
  function FooterContext(sections: seq<Section>): string
  {
    ConcatMap(sections, FooterEntry)
  }

  /** In the footer context, section `k`'s entry starts exactly where the entries of the sections before it end: nothing is inserted between sections. */
  lemma FooterContextInOrder(items: seq<Section>, k: nat)
    requires k < |items|
    ensures |FooterContext(items[..k])| + |FooterEntry(items[k])| <= |FooterContext(items)|
    ensures FooterContext(items)[..|FooterContext(items[..k])|] == FooterContext(items[..k])
    ensures FooterContext(items)[|FooterContext(items[..k])|..|FooterContext(items[..k])| + |FooterEntry(items[k])|] == FooterEntry(items[k])
  {
    ConcatMapBlockAt(items, FooterEntry, k);
  }

  /** The footer context is exactly as long as the section entries together. */
  lemma {:induction false} FooterContextLength(sections: seq<Section>)
    ensures |FooterContext(sections)| == 30 * |sections| + TextLength(sections)
  {
    if |sections| > 0 {
      var init := sections[..|sections| - 1];
      FooterContextLength(init);
      assert FooterContext(sections) == FooterContext(init) + FooterEntry(sections[|sections| - 1]);
    }
  }

  /** The characters of the names, descriptions and contents of all sections. */
  function TextLength(sections: seq<Section>): nat
  {
    if |sections| == 0 then 0
    else
      var s := sections[|sections| - 1];
      TextLength(sections[..|sections| - 1]) + |s.name| + |s.description| + |s.content|
  }

  /** The footer chain: query, classification, footer context. */
  type FooterChain = (Option<string>, Option<string>, string) -> Option<string>

  /**
   * `footer_writer_node`: builds the footer context section by section and
   * asks the chain for a conclusion; an empty conclusion when there are no
   * sections or the call fails.
   */
  method FooterWriterNode(query: Option<string>, typeOfQuery: Option<string>, sections: Option<seq<Section>>,
                          chain: FooterChain)
    returns (conclusion: string)
    ensures sections.None? ==> conclusion == ""
    ensures sections.Some? ==> conclusion == chain(query, typeOfQuery, FooterContext(sections.value)).GetOr("")
  {
    if sections.None? {
      return "";
    }
    var all := sections.value;
    var sectionString := "";
    var i := 0;
    while i < |all|
      invariant 0 <= i <= |all|
      invariant sectionString == FooterContext(all[..i])
    {
      ConcatMapStep(all, i, FooterEntry);
      sectionString := sectionString + FooterEntry(all[i]);
      i := i + 1;
    }
    assert all[..i] == all;
    conclusion := chain(query, typeOfQuery, sectionString).GetOr("");
  }

  /** What `verify_report_node` returns. */
  datatype Verdict = Verdict(reportFramework: bool, userFeedback: string)

  /** `verify_report_node`: reads nothing and always approves, with the feedback reset to a single space. */
  function VerifyReportNode(): (v: Verdict)
    ensures v.reportFramework
    ensures v.userFeedback == " "
  {
    Verdict(true, " ")
  }
}
