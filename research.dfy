/**
 * The two research nodes of src/nodes/research.py.
 *
 * `query_generation_node` asks the query-writing chain for one sparse tool
 * query record per section that needs research, tagging each with the
 * section's id. `tool_output_node` runs the dispatcher on each of those
 * records and tags each output with the same id, so that the writer can
 * join outputs back to sections.
 *
 * The chain is a language-model call. Its builder answers `None` when it
 * cannot be built, and its invocation may raise; `ChainOutcome` gives the
 * three cases and the chain itself is a function parameter.
 */
module Research {
  import opened Wrappers
  import opened Text
  import opened Models
  import Orchestrator

  /** What one use of a language-model chain gives: no chain was built, the call raised, or a value. */
  datatype ChainOutcome<T> = NoChain | Raised | Returned(value: T)

  /** The query-writing chain, given the classification, the user's query and the section text. */
  type QueryChain = (string, string, string) -> ChainOutcome<ToolQueryState>

  /** The section text the query chain is given. */
  function SectionPrompt(s: Section): (r: string)
    ensures |r| == 9 + |s.name| + 14 + |s.description| + 10 + |s.content| + 2
  {
    "Section: " + s.name + "\nDescription: " + s.description + "\nContent: " + s.content + "\n\n"
  }

  /** The sections with `research` set, in order. */
  function ResearchSections(sections: seq<Section>): (r: seq<Section>)
    ensures |r| <= |sections|
    ensures forall s :: s in r <==> s in sections && s.research
  {
    if |sections| == 0 then []
    else
      var init := ResearchSections(sections[..|sections| - 1]);
      var s := sections[|sections| - 1];
      assert sections == sections[..|sections| - 1] + [s];
      if s.research then init + [s] else init
  }

  /**
   * What `query_generation_node` returns for the given sections: `None` as
   * soon as a chain call raises, otherwise one record per research section
   * whose chain answered, in section order.
   */
  function GenerateQueries(sections: seq<Section>, typeOfQuery: string, query: string, chain: QueryChain)
    : Option<seq<QueryState>>
  {
    if |sections| == 0 then Some([])
    else
      match GenerateQueries(sections[..|sections| - 1], typeOfQuery, query, chain)
      case None => None
      case Some(qs) =>
        var s := sections[|sections| - 1];
        if !s.research then Some(qs)
        else
          match chain(typeOfQuery, query, SectionPrompt(s))
          case NoChain => Some(qs)
          case Raised => None
          case Returned(v) => Some(qs + [QueryState(s.sectionId, v)])
  }

  /** Whether the chain raises for some research section. */
  predicate SomeChainRaises(sections: seq<Section>, typeOfQuery: string, query: string, chain: QueryChain)
  {
    exists s :: s in sections && s.research && chain(typeOfQuery, query, SectionPrompt(s)).Raised?
  }

  /** The query record produced for a research section whose chain answered. */
  predicate QueryFromSection(sections: seq<Section>, typeOfQuery: string, query: string, chain: QueryChain, q: QueryState)
  {
    exists s :: s in sections && s.research && s.sectionId == q.sectionId
      && chain(typeOfQuery, query, SectionPrompt(s)) == Returned(q.queryState)
  }

  lemma PrefixStep<T>(xs: seq<T>, i: nat)
    requires i < |xs|
    ensures xs[..i + 1][..i] == xs[..i] && xs[..i + 1][i] == xs[i]
  {
  }

  /** Once a prefix fails, every longer prefix fails: an exception ends the whole node. */
  lemma {:induction false} FailureIsFinal(sections: seq<Section>, i: nat, typeOfQuery: string, query: string, chain: QueryChain)
    requires i <= |sections| && GenerateQueries(sections[..i], typeOfQuery, query, chain).None?
    ensures GenerateQueries(sections, typeOfQuery, query, chain).None?
    decreases |sections| - i
  {
    if i < |sections| {
      PrefixStep(sections, i);
      FailureIsFinal(sections, i + 1, typeOfQuery, query, chain);
    } else {
      assert sections[..i] == sections;
    }
  }

  /** The node gives `None` exactly when the chain raises for some research section. */
  lemma {:induction false} NoneIffSomeChainRaises(sections: seq<Section>, typeOfQuery: string, query: string, chain: QueryChain)
    ensures GenerateQueries(sections, typeOfQuery, query, chain).None? <==> SomeChainRaises(sections, typeOfQuery, query, chain)
  {
    if |sections| > 0 {
      var init := sections[..|sections| - 1];
      var s := sections[|sections| - 1];
      NoneIffSomeChainRaises(init, typeOfQuery, query, chain);
      assert sections == init + [s];
      assert forall x :: x in sections <==> x in init || x == s;
    }
  }

  /**
   * Every record the node produces belongs to a research section whose
   * chain answered with that record, and there are never more records than
   * research sections.
   */
  lemma {:induction false} QueriesComeFromResearchSections(sections: seq<Section>, typeOfQuery: string, query: string, chain: QueryChain)
    requires GenerateQueries(sections, typeOfQuery, query, chain).Some?
    ensures var qs := GenerateQueries(sections, typeOfQuery, query, chain).value;
      |qs| <= |ResearchSections(sections)|
      && forall q :: q in qs ==> QueryFromSection(sections, typeOfQuery, query, chain, q)
  {
    if |sections| > 0 {
      var init := sections[..|sections| - 1];
      var s := sections[|sections| - 1];
      assert sections == init + [s];
      assert forall x :: x in init ==> x in sections;
      QueriesComeFromResearchSections(init, typeOfQuery, query, chain);
      var qs' := GenerateQueries(init, typeOfQuery, query, chain).value;
      var qs := GenerateQueries(sections, typeOfQuery, query, chain).value;
      assert forall q :: q in qs' ==> QueryFromSection(sections, typeOfQuery, query, chain, q);
      if s.research && chain(typeOfQuery, query, SectionPrompt(s)).Returned? {
        assert ResearchSections(sections) == ResearchSections(init) + [s];
        assert qs == qs' + [QueryState(s.sectionId, chain(typeOfQuery, query, SectionPrompt(s)).value)];
      } else {
        assert qs == qs';
      }
    }
  }

  /**
   * When the chain answers for every research section, the node produces
   * exactly one record per research section, in section order, tagged with
   * that section's id and holding the chain's answer.
   */
  lemma {:induction false} OneQueryPerResearchSection(sections: seq<Section>, typeOfQuery: string, query: string, chain: QueryChain)
    requires forall s :: s in sections && s.research ==> chain(typeOfQuery, query, SectionPrompt(s)).Returned?
    ensures GenerateQueries(sections, typeOfQuery, query, chain).Some?
    ensures var qs := GenerateQueries(sections, typeOfQuery, query, chain).value;
      var rs := ResearchSections(sections);
      |qs| == |rs|
      && forall j :: 0 <= j < |qs| ==>
           qs[j].sectionId == rs[j].sectionId
           && qs[j].queryState == chain(typeOfQuery, query, SectionPrompt(rs[j])).value
  {
    if |sections| > 0 {
      var init := sections[..|sections| - 1];
      var s := sections[|sections| - 1];
      assert forall x :: x in init ==> x in sections;
      OneQueryPerResearchSection(init, typeOfQuery, query, chain);
      var qs' := GenerateQueries(init, typeOfQuery, query, chain).value;
      var rs' := ResearchSections(init);
      if s.research {
        var q := QueryState(s.sectionId, chain(typeOfQuery, query, SectionPrompt(s)).value);
        assert GenerateQueries(sections, typeOfQuery, query, chain) == Some(qs' + [q]);
        assert ResearchSections(sections) == rs' + [s];
      } else {
        assert GenerateQueries(sections, typeOfQuery, query, chain) == Some(qs');
        assert ResearchSections(sections) == rs';
      }
    }
  }

  /** Without research sections there are no records, whatever the chain does. */
  lemma {:induction false} NoResearchNoQueries(sections: seq<Section>, typeOfQuery: string, query: string, chain: QueryChain)
    requires forall s :: s in sections ==> !s.research
    ensures GenerateQueries(sections, typeOfQuery, query, chain) == Some([])
  {
    if |sections| > 0 {
      var init := sections[..|sections| - 1];
      assert forall x :: x in init ==> x in sections;
      NoResearchNoQueries(init, typeOfQuery, query, chain);
    }
  }

  /**
   * `query_generation_node`: visits the sections in order and, for each one
   * that needs research, builds the section text, asks the chain for a
   * query record and appends it tagged with the section's id. Missing or
   * empty sections give an empty list; a raising chain gives `None`.
   */
  method QueryGenerationNode(query: string, typeOfQuery: QueryType, sections: Option<seq<Section>>, chain: QueryChain)
    returns (queries: Option<seq<QueryState>>)
    ensures queries == GenerateQueries(sections.GetOr([]), Literal(typeOfQuery), query, chain)
  {
    var all := sections.GetOr([]);
    var inputList: seq<QueryState> := [];
    var i := 0;
    while i < |all|
      invariant 0 <= i <= |all|
      invariant GenerateQueries(all[..i], Literal(typeOfQuery), query, chain) == Some(inputList)
    {
      var section := all[i];
      PrefixStep(all, i);
      if section.research {
        var sectionString := SectionPrompt(section);
        var outcome := chain(Literal(typeOfQuery), query, sectionString);
        match outcome
        case NoChain =>
        case Raised =>
          FailureIsFinal(all, i + 1, Literal(typeOfQuery), query, chain);
          return None;
        case Returned(output) =>
          inputList := inputList + [QueryState(section.sectionId, output)];
      }
      i := i + 1;
    }
    assert all[..i] == all;
    queries := Some(inputList);
  }

  /**
   * The record `tool_output_node` produces for one query record: the
   * dispatcher's output tagged with the same id, or nothing when a tool
   * call raised.
   */
  function OutputFor(tools: Orchestrator.ToolSuite, typeOfQuery: string, q: QueryState): (r: Option<OutputState>)
    ensures r.None? <==> Orchestrator.SomeToolRaises(tools, q.queryState, typeOfQuery)
    ensures r.Some? ==> r.value.sectionId == q.sectionId
  {
    Orchestrator.DispatchNoneIffSomeToolRaises(tools, q.queryState, typeOfQuery);
    match Orchestrator.Dispatch(tools, q.queryState, typeOfQuery)
    case None => None
    case Some(o) => Some(OutputState(q.sectionId, o))
  }

  /**
   * What `tool_output_node` returns for a list of query records: one output
   * per record, in order, or `None` as soon as a dispatch raises.
   */
  function ToolOutputs(tools: Orchestrator.ToolSuite, typeOfQuery: string, qs: seq<QueryState>): (r: Option<seq<OutputState>>)
    ensures r.Some? ==> |r.value| == |qs|
  {
    if |qs| == 0 then Some([])
    else
      match ToolOutputs(tools, typeOfQuery, qs[..|qs| - 1])
      case None => None
      case Some(os) =>
        match OutputFor(tools, typeOfQuery, qs[|qs| - 1])
        case None => None
        case Some(o) => Some(os + [o])
  }

  /** The outputs are `None` exactly when some tool call raises for some query record. */
  lemma {:induction false} ToolOutputsNoneIffSomeRaises(tools: Orchestrator.ToolSuite, typeOfQuery: string, qs: seq<QueryState>)
    ensures ToolOutputs(tools, typeOfQuery, qs).None? <==>
      exists j :: 0 <= j < |qs| && Orchestrator.SomeToolRaises(tools, qs[j].queryState, typeOfQuery)
  {
    if |qs| > 0 {
      var init := qs[..|qs| - 1];
      ToolOutputsNoneIffSomeRaises(tools, typeOfQuery, init);
      assert forall j :: 0 <= j < |init| ==> init[j] == qs[j];
      if exists j :: 0 <= j < |qs| && Orchestrator.SomeToolRaises(tools, qs[j].queryState, typeOfQuery) {
        var j :| 0 <= j < |qs| && Orchestrator.SomeToolRaises(tools, qs[j].queryState, typeOfQuery);
        if j < |init| {
          assert Orchestrator.SomeToolRaises(tools, init[j].queryState, typeOfQuery);
        }
      }
    }
  }

  /** When the outputs exist, the `j`-th is the dispatch of the `j`-th query record, under the same section id. */
  lemma {:induction false} ToolOutputsPointwise(tools: Orchestrator.ToolSuite, typeOfQuery: string, qs: seq<QueryState>)
    requires ToolOutputs(tools, typeOfQuery, qs).Some?
    ensures forall j :: 0 <= j < |qs| ==>
      OutputFor(tools, typeOfQuery, qs[j]).Some?
      && ToolOutputs(tools, typeOfQuery, qs).value[j] == OutputFor(tools, typeOfQuery, qs[j]).value
  {
    if |qs| > 0 {
      ToolOutputsPointwise(tools, typeOfQuery, qs[..|qs| - 1]);
    }
  }

  /** Once a prefix of the query records gives `None`, so do all of them: a raise ends the whole node. */
  lemma {:induction false} OutputFailureIsFinal(tools: Orchestrator.ToolSuite, typeOfQuery: string, qs: seq<QueryState>, i: nat)
    requires i <= |qs| && ToolOutputs(tools, typeOfQuery, qs[..i]).None?
    ensures ToolOutputs(tools, typeOfQuery, qs).None?
    decreases |qs| - i
  {
    if i < |qs| {
      PrefixStep(qs, i);
      OutputFailureIsFinal(tools, typeOfQuery, qs, i + 1);
    } else {
      assert qs[..i] == qs;
    }
  }

  /** One more query record: its dispatch either ends the outputs or adds one output tagged with its id. */
  lemma OutputsStep(tools: Orchestrator.ToolSuite, typeOfQuery: string, qs: seq<QueryState>, i: nat)
    requires i < |qs| && ToolOutputs(tools, typeOfQuery, qs[..i]).Some?
    ensures Orchestrator.Dispatch(tools, qs[i].queryState, typeOfQuery).None? ==>
      ToolOutputs(tools, typeOfQuery, qs[..i + 1]).None?
    ensures Orchestrator.Dispatch(tools, qs[i].queryState, typeOfQuery).Some? ==>
      ToolOutputs(tools, typeOfQuery, qs[..i + 1]) ==
        Some(ToolOutputs(tools, typeOfQuery, qs[..i]).value
             + [OutputState(qs[i].sectionId, Orchestrator.Dispatch(tools, qs[i].queryState, typeOfQuery).value)])
  {
    PrefixStep(qs, i);
  }

  /**
   * `tool_output_node`: for each query record in order, runs the
   * dispatcher under the state's classification and appends its output
   * tagged with the record's section id. Missing or empty query lists give
   * an empty list; a tool call that raises gives `None`.
   */
  method ToolOutputNode(typeOfQuery: QueryType, queries: Option<seq<QueryState>>, tools: Orchestrator.ToolSuite)
    returns (outputs: Option<seq<OutputState>>)
    ensures outputs == ToolOutputs(tools, Literal(typeOfQuery), queries.GetOr([]))
  {
    var all := queries.GetOr([]);
    var outputList: seq<OutputState> := [];
    var i := 0;
    while i < |all|
      invariant 0 <= i <= |all|
      invariant ToolOutputs(tools, Literal(typeOfQuery), all[..i]) == Some(outputList)
    {
      var query := all[i];
      OutputsStep(tools, Literal(typeOfQuery), all, i);
      var output, _ := Orchestrator.GetToolOutput(tools, query.queryState, Literal(typeOfQuery));
      if output.None? {
        OutputFailureIsFinal(tools, Literal(typeOfQuery), all, i + 1);
        return None;
      }
      outputList := outputList + [OutputState(query.sectionId, output.value)];
      i := i + 1;
    }
    assert all[..i] == all;
    outputs := Some(outputList);
  }

  /**
   * The join key survives both nodes: when every research section's chain
   * answers, the research stage gives `None` exactly when a tool call
   * raises, and otherwise one output per research section, in section
   * order, each tagged with its section's id.
   */
  lemma ResearchStageJoin(sections: seq<Section>, typeOfQuery: string, query: string, chain: QueryChain,
                          tools: Orchestrator.ToolSuite)
    requires forall s :: s in sections && s.research ==> chain(typeOfQuery, query, SectionPrompt(s)).Returned?
    ensures GenerateQueries(sections, typeOfQuery, query, chain).Some?
    ensures var qs := GenerateQueries(sections, typeOfQuery, query, chain).value;
      ToolOutputs(tools, typeOfQuery, qs).None? <==>
        exists j :: 0 <= j < |qs| && Orchestrator.SomeToolRaises(tools, qs[j].queryState, typeOfQuery)
    ensures var outs := ToolOutputs(tools, typeOfQuery, GenerateQueries(sections, typeOfQuery, query, chain).value);
      var rs := ResearchSections(sections);
      outs.Some? ==> |outs.value| == |rs| && forall j :: 0 <= j < |rs| ==> outs.value[j].sectionId == rs[j].sectionId
  {
    OneQueryPerResearchSection(sections, typeOfQuery, query, chain);
    var qs := GenerateQueries(sections, typeOfQuery, query, chain).value;
    ToolOutputsNoneIffSomeRaises(tools, typeOfQuery, qs);
    if ToolOutputs(tools, typeOfQuery, qs).Some? {
      ToolOutputsPointwise(tools, typeOfQuery, qs);
    }
  }
}
