/**
 * The writer stage of src/nodes/writer.py.
 *
 * `detailed_section_writer_node` walks the report's sections in order and
 * rewrites, in place, the name, description and content of every section
 * that needs research. The text comes from the section-writing chain, fed
 * with the evidence of each tool output whose section id matches. Every
 * match also yields a Reference. The header, footer and formatter nodes
 * assemble prompt strings and ask a chain for one piece of text.
 *
 * Every chain is a function parameter. An answer of `None` stands for any
 * failure of the call: a builder that gave `None` or an invocation that
 * raised. Both end in the node's `except` branch.
 */
module Writer {
  import opened Wrappers
  import opened Text
  import opened Models
  import Formatter

  /** The section-writing chain: query, classification, section text, research data. */
  type SectionWriterChain = (string, string, string, string) -> Option<DetailedSection>

  /** The section text the section writer is given. */
  function WriterPrompt(s: Section): string
  {
    "name: " + s.name + " description: " + s.description + " content: " + s.content
  }

  /** A section with the writer's name, description and content; its id and research flag are kept. */
  function Rewrite(s: Section, d: DetailedSection): (r: Section)
    ensures r.sectionId == s.sectionId && r.research == s.research
    ensures r.name == d.name && r.description == d.description && r.content == d.content
  {
    s.(name := d.name, description := d.description, content := d.content)
  }

  /**
   * What the section writer works with: the user's query and its
   * classification, the section-writing chain, and the evidence normaliser
   * (the text and the URLs `roll_out_output` makes of a tool-output record).
   */
  datatype Env = Env(query: string, typeOfQuery: string, writer: SectionWriterChain,
                     evidence: ToolOutputState -> string, sources: ToolOutputState -> seq<string>)

  /** The environment of the node itself: its normaliser is the one of backend/src/tools/formatter.py. */
  function NodeEnv(query: string, typeOfQuery: string, writer: SectionWriterChain): (env: Env)
    ensures env.query == query && env.typeOfQuery == typeOfQuery && env.writer == writer
  {
    Env(query, typeOfQuery, writer, Formatter.EvidenceText, Formatter.EvidenceUrls)
  }

  /** The Reference `roll_out_output` fills for a matching output: the section's name and id, and the output's URLs. */
  function ReferenceFor(o: OutputState, s: Section, env: Env): (r: ReferenceRecord)
    ensures r.sectionName == Some(s.name) && r.sectionId == Some(s.sectionId)
  {
    ReferenceRecord(Some(s.name), Some(s.sectionId), env.sources(o.outputState))
  }

  /**
   * The node's working state: the section list as rewritten so far, the
   * references collected, the last writer answer (`section_written`) and
   * whether an exception has ended the run.
   */
  datatype SectionRun = SectionRun(sections: seq<Section>, refs: seq<ReferenceRecord>,
                                   written: Option<DetailedSection>, failed: bool)

  /** Records a writer answer; a failed call ends the run. */
  function Ask(r: SectionRun, answer: Option<DetailedSection>): (r': SectionRun)
    ensures r'.sections == r.sections && r'.refs == r.refs
    ensures r'.failed <==> r.failed || answer.None?
  {
    if answer.None? then r.(failed := true) else r.(written := answer)
  }

  /**
   * The inner loop over the tool outputs for research section `s`: each
   * output with the section's id adds a Reference and asks the writer again
   * with that output's evidence.
   */
  function MatchOutputs(s: Section, outs: seq<OutputState>, env: Env, start: SectionRun): (r: SectionRun)
    ensures r.sections == start.sections
  {
    if |outs| == 0 then start
    else
      var r := MatchOutputs(s, outs[..|outs| - 1], env, start);
      var o := outs[|outs| - 1];
      if r.failed || o.sectionId != s.sectionId then r
      else
        Ask(r.(refs := r.refs + [ReferenceFor(o, s, env)]),
            env.writer(env.query, env.typeOfQuery, WriterPrompt(s), env.evidence(o.outputState)))
  }

  /** One pass of the outer loop, for the section at index `i`. */
  function StepSection(r: SectionRun, i: nat, outputs: Option<seq<OutputState>>, env: Env): (r': SectionRun)
    requires i < |r.sections|
    ensures |r'.sections| == |r.sections|
  {
    var s := r.sections[i];
    if !s.research then Ask(r, env.writer(env.query, env.typeOfQuery, WriterPrompt(s), ""))
    else if outputs.None? then r.(failed := true)
    else
      var m := MatchOutputs(s, outputs.value, env, r);
      if m.failed then m
      else
        match m.written
        case None => m.(failed := true)
        case Some(d) => m.(sections := m.sections[i := Rewrite(s, d)])
  }

  /** The working state after the outer loop has visited the first `k` sections of `all`. */
  function WriteUpTo(all: seq<Section>, outputs: Option<seq<OutputState>>, env: Env, k: nat): (r: SectionRun)
    requires k <= |all|
    ensures |r.sections| == |all|
  {
    if k == 0 then SectionRun(all, [], None, false)
    else
      var r := WriteUpTo(all, outputs, env, k - 1);
      if r.failed then r else StepSection(r, k - 1, outputs, env)
  }

  /** What the node returns: the sections, and the references unless the run failed. */
  datatype SectionWriterResult = SectionWriterResult(sections: seq<Section>, references: Option<seq<ReferenceRecord>>)

  /** `detailed_section_writer_node` as a function of its inputs. */
  function DetailedSectionWriter(sections: Option<seq<Section>>, outputs: Option<seq<OutputState>>, env: Env): SectionWriterResult
  {
    match sections
    case None => SectionWriterResult([], None)
    case Some(all) =>
      var r := WriteUpTo(all, outputs, env, |all|);
      SectionWriterResult(r.sections, if r.failed then None else Some(r.refs))
  }

  lemma PrefixStep<T>(xs: seq<T>, i: nat)
    requires i < |xs|
    ensures xs[..i + 1][..i] == xs[..i] && xs[..i + 1][i] == xs[i]
  {
  }

  /** Once the inner loop has failed, the remaining outputs change nothing. */
  lemma {:induction false} MatchFailureIsFinal(s: Section, outs: seq<OutputState>, j: nat, env: Env, start: SectionRun)
    requires j <= |outs| && MatchOutputs(s, outs[..j], env, start).failed
    ensures MatchOutputs(s, outs, env, start) == MatchOutputs(s, outs[..j], env, start)
    decreases |outs| - j
  {
    if j < |outs| {
      PrefixStep(outs, j);
      MatchFailureIsFinal(s, outs, j + 1, env, start);
    } else {
      assert outs[..j] == outs;
    }
  }

  /** Once the node has failed, the remaining sections change nothing. */
  lemma {:induction false} FailureIsFinal(all: seq<Section>, outputs: Option<seq<OutputState>>, env: Env, j: nat, k: nat)
    requires j <= k <= |all| && WriteUpTo(all, outputs, env, j).failed
    ensures WriteUpTo(all, outputs, env, k) == WriteUpTo(all, outputs, env, j)
    decreases k - j
  {
    if j < k {
      FailureIsFinal(all, outputs, env, j, k - 1);
    }
  }

  /** The references `roll_out_output` yields for section `s`: one per output with its id, in output order. */
  function MatchingRefs(s: Section, outs: seq<OutputState>, env: Env): (r: seq<ReferenceRecord>)
    ensures |r| <= |outs|
  {
    if |outs| == 0 then []
    else
      var o := outs[|outs| - 1];
      MatchingRefs(s, outs[..|outs| - 1], env) + if o.sectionId == s.sectionId then [ReferenceFor(o, s, env)] else []
  }

  /** The references a successful run collects: those of every research section, in section order. */
  function ExpectedRefs(sections: seq<Section>, outs: seq<OutputState>, env: Env): seq<ReferenceRecord>
  {
    if |sections| == 0 then []
    else
      var s := sections[|sections| - 1];
      ExpectedRefs(sections[..|sections| - 1], outs, env) + if s.research then MatchingRefs(s, outs, env) else []
  }

  /** The last output with the section's id, whose answer is the one the section keeps. */
  function LastMatch(s: Section, outs: seq<OutputState>): (r: Option<OutputState>)
    ensures r.Some? ==> r.value in outs && r.value.sectionId == s.sectionId
    ensures r.None? ==> forall o :: o in outs ==> o.sectionId != s.sectionId
  {
    if |outs| == 0 then None
    else if outs[|outs| - 1].sectionId == s.sectionId then Some(outs[|outs| - 1])
    else
      var r := LastMatch(s, outs[..|outs| - 1]);
      assert outs == outs[..|outs| - 1] + [outs[|outs| - 1]];
      r
  }

  /** The writer's answer for the evidence of one output of section `s`. */
  function AnswerFor(s: Section, o: OutputState, env: Env): Option<DetailedSection>
  {
    env.writer(env.query, env.typeOfQuery, WriterPrompt(s), env.evidence(o.outputState))
  }

  /**
   * A successful inner loop adds exactly the section's matching references
   * to those already collected, and leaves as the last answer the one for
   * the last matching output, or the earlier answer when none matches.
   */
  lemma {:induction false} MatchOutputsResult(s: Section, outs: seq<OutputState>, env: Env, start: SectionRun)
    requires !MatchOutputs(s, outs, env, start).failed
    ensures MatchOutputs(s, outs, env, start).refs == start.refs + MatchingRefs(s, outs, env)
    ensures MatchOutputs(s, outs, env, start).written
            == match LastMatch(s, outs)
               case Some(o) => AnswerFor(s, o, env)
               case None => start.written
  {
    if |outs| == 0 {
      assert start.refs + [] == start.refs;
    } else {
      var init := outs[..|outs| - 1];
      var o := outs[|outs| - 1];
      MatchOutputsResult(s, init, env, start);
      if o.sectionId == s.sectionId {
        AppendAssoc(start.refs, MatchingRefs(s, init, env), [ReferenceFor(o, s, env)]);
      } else {
        assert MatchingRefs(s, outs, env) == MatchingRefs(s, init, env) + [];
      }
    }
  }

  /** One pass changes at most the visited section, and only the text of a research section. */
  lemma StepSectionKeeps(r: SectionRun, i: nat, outputs: Option<seq<OutputState>>, env: Env)
    requires i < |r.sections|
    ensures var r' := StepSection(r, i, outputs, env);
      && (forall j :: 0 <= j < |r.sections| && j != i ==> r'.sections[j] == r.sections[j])
      && r'.sections[i].sectionId == r.sections[i].sectionId
      && r'.sections[i].research == r.sections[i].research
      && (!r.sections[i].research ==> r'.sections[i] == r.sections[i])
  {
  }

  /**
   * Which fields the node may change: every section keeps its id and its
   * research flag, sections without research are never changed, and
   * sections not yet visited are as they were.
   */
  lemma {:induction false} WriteUpToKeeps(all: seq<Section>, outputs: Option<seq<OutputState>>, env: Env, k: nat)
    requires k <= |all|
    ensures var r := WriteUpTo(all, outputs, env, k);
      forall i :: 0 <= i < |all| ==>
        r.sections[i].sectionId == all[i].sectionId && r.sections[i].research == all[i].research
        && (k <= i || !all[i].research ==> r.sections[i] == all[i])
  {
    if k > 0 {
      WriteUpToKeeps(all, outputs, env, k - 1);
      var prev := WriteUpTo(all, outputs, env, k - 1);
      if !prev.failed {
        StepSectionKeeps(prev, k - 1, outputs, env);
      }
    }
  }

  /**
   * References: a successful run has collected, in section order, one
   * Reference per pair of a research section and an output with its id.
   */
  lemma {:induction false} WriteUpToRefs(all: seq<Section>, outputs: Option<seq<OutputState>>, env: Env, k: nat)
    requires k <= |all| && !WriteUpTo(all, outputs, env, k).failed
    ensures WriteUpTo(all, outputs, env, k).refs == ExpectedRefs(all[..k], outputs.GetOr([]), env)
  {
    if k > 0 {
      var prev := WriteUpTo(all, outputs, env, k - 1);
      assert !prev.failed;
      WriteUpToRefs(all, outputs, env, k - 1);
      WriteUpToKeeps(all, outputs, env, k - 1);
      var s := all[k - 1];
      assert prev.sections[k - 1] == s;
      PrefixStep(all, k - 1);
      var expected := ExpectedRefs(all[..k - 1], outputs.GetOr([]), env);
      if s.research {
        var m := MatchOutputs(s, outputs.value, env, prev);
        assert !m.failed;
        MatchOutputsResult(s, outputs.value, env, prev);
        assert WriteUpTo(all, outputs, env, k).refs == m.refs;
        assert ExpectedRefs(all[..k], outputs.GetOr([]), env) == expected + MatchingRefs(s, outputs.value, env);
      } else {
        assert WriteUpTo(all, outputs, env, k).refs == prev.refs;
        assert ExpectedRefs(all[..k], outputs.GetOr([]), env) == expected + [];
      }
    }
  }

  /** A run that reaches a research section without an output list fails. */
  lemma {:induction false} ResearchNeedsOutputs(all: seq<Section>, outputs: Option<seq<OutputState>>, env: Env, k: nat)
    requires k <= |all| && outputs.None? && !WriteUpTo(all, outputs, env, k).failed
    ensures forall i :: 0 <= i < k ==> !all[i].research
  {
    if k > 0 {
      var prev := WriteUpTo(all, outputs, env, k - 1);
      assert !prev.failed;
      ResearchNeedsOutputs(all, outputs, env, k - 1);
      WriteUpToKeeps(all, outputs, env, k - 1);
      assert prev.sections[k - 1] == all[k - 1];
    }
  }

  /**
   * What a visited research section holds after a successful pass: the
   * writer's answer for its last matching output, or, when no output
   * matches, the answer left over from the previous pass (a stale copy of
   * another section's text). Without any earlier answer the pass fails.
   */
  lemma ResearchSectionRewritten(all: seq<Section>, outputs: Option<seq<OutputState>>, env: Env, i: nat)
    requires i < |all| && all[i].research
    requires !WriteUpTo(all, outputs, env, i + 1).failed
    ensures outputs.Some?
    ensures var prev := WriteUpTo(all, outputs, env, i);
      var answer := match LastMatch(all[i], outputs.value)
                    case Some(o) => AnswerFor(all[i], o, env)
                    case None => prev.written;
      answer.Some? && WriteUpTo(all, outputs, env, i + 1).sections[i] == Rewrite(all[i], answer.value)
  {
    var prev := WriteUpTo(all, outputs, env, i);
    WriteUpToKeeps(all, outputs, env, i);
    assert prev.sections[i] == all[i];
    MatchOutputsResult(all[i], outputs.value, env, prev);
  }

  /**
   * The inner loop of `detailed_section_writer_node` for research section
   * `section`: for each output with the section's id, fills a fresh
   * Reference through the evidence normaliser, keeps it, and asks the
   * writer with that evidence. `failed` reports an exception.
   */
  method MatchAndWrite(section: Section, outs: seq<OutputState>, query: string, typeOfQuery: string,
                       writer: SectionWriterChain, ghost sections: seq<Section>,
                       refs: seq<ReferenceRecord>, written: Option<DetailedSection>)
    returns (refs': seq<ReferenceRecord>, written': Option<DetailedSection>, failed: bool)
    ensures SectionRun(sections, refs', written', failed)
            == MatchOutputs(section, outs, NodeEnv(query, typeOfQuery, writer), SectionRun(sections, refs, written, false))
  {
    ghost var env := NodeEnv(query, typeOfQuery, writer);
    ghost var start := SectionRun(sections, refs, written, false);
    refs', written', failed := refs, written, false;
    var j := 0;
    while j < |outs|
      invariant 0 <= j <= |outs|
      invariant MatchOutputs(section, outs[..j], env, start)
                == SectionRun(sections, refs', written', false)
    {
      var output := outs[j];
      PrefixStep(outs, j);
      if output.sectionId == section.sectionId {
        var ref := new Reference();
        var rollOutStr := Formatter.RollOutOutput(output.outputState, ref, section);
        EmptyAppend(Formatter.EvidenceUrls(output.outputState));
        assert ref.Snapshot() == ReferenceFor(output, section, env);
        refs' := refs' + [ref.Snapshot()];
        var answer := writer(query, typeOfQuery, WriterPrompt(section), rollOutStr);
        if answer.None? {
          MatchFailureIsFinal(section, outs, j + 1, env, start);
          failed := true;
          return;
        }
        written' := answer;
      }
      j := j + 1;
    }
    assert outs[..j] == outs;
  }

  /**
   * One pass of the outer loop of `detailed_section_writer_node`, for the
   * section at index `i`, up to the in-place update: asks the writer (with
   * no research data, or once per matching output) and reports whether
   * the pass raised.
   */
  method WriteOneSection(section: Section, i: nat, ghost sections: seq<Section>, outputs: Option<seq<OutputState>>,
                         query: string, typeOfQuery: string, writer: SectionWriterChain,
                         refs: seq<ReferenceRecord>, written: Option<DetailedSection>)
    returns (refs': seq<ReferenceRecord>, written': Option<DetailedSection>, failed: bool)
    requires i < |sections| && sections[i] == section
    ensures !failed && section.research ==> written'.Some?
    ensures StepSection(SectionRun(sections, refs, written, false), i, outputs, NodeEnv(query, typeOfQuery, writer))
            == if failed then SectionRun(sections, refs', written', true)
               else if section.research then SectionRun(sections[i := Rewrite(section, written'.value)], refs', written', false)
               else SectionRun(sections, refs', written', false)
  {
    refs', written', failed := refs, written, false;
    if !section.research {
      var answer := writer(query, typeOfQuery, WriterPrompt(section), "");
      failed := answer.None?;
      if !failed {
        written' := answer;
      }
    } else if outputs.None? {
      failed := true;
    } else {
      refs', written', failed := MatchAndWrite(section, outputs.value, query, typeOfQuery, writer, sections, refs, written);
      if !failed && written'.None? {
        failed := true;
      }
    }
  }

  /** One pass of the outer loop, including the in-place update of the section at index `i`. */
  method WriteSectionInPlace(sections: array<Section>, i: nat, outputs: Option<seq<OutputState>>,
                             query: string, typeOfQuery: string, writer: SectionWriterChain,
                             refs: seq<ReferenceRecord>, written: Option<DetailedSection>)
    returns (refs': seq<ReferenceRecord>, written': Option<DetailedSection>, failed: bool)
    requires i < sections.Length
    modifies sections
    ensures StepSection(SectionRun(old(sections[..]), refs, written, false), i, outputs, NodeEnv(query, typeOfQuery, writer))
            == SectionRun(sections[..], refs', written', failed)
  {
    var section := sections[i];
    ghost var current := sections[..];
    refs', written', failed := WriteOneSection(section, i, current, outputs, query, typeOfQuery, writer, refs, written);
    if !failed && section.research {
      sections[i] := Rewrite(section, written'.value);
      assert sections[..] == current[i := Rewrite(section, written'.value)];
    }
  }

  /**
   * `detailed_section_writer_node`: the sections are rewritten in place, in
   * the caller's own list. On failure the node returns the list as it
   * stands (sections rewritten before the failure stay rewritten) and no
   * references; without a section list it returns an empty one.
   */
  method DetailedSectionWriterNode(query: string, typeOfQuery: QueryType, outputs: Option<seq<OutputState>>,
                                   sections: array?<Section>, writer: SectionWriterChain)
    returns (result: SectionWriterResult)
    modifies sections
    ensures result == DetailedSectionWriter(if sections == null then None else Some(old(sections[..])),
                                            outputs, NodeEnv(query, Literal(typeOfQuery), writer))
    ensures sections != null ==> sections[..] == result.sections
  {
    if sections == null {
      return SectionWriterResult([], None);
    }
    ghost var all := sections[..];
    var ty := Literal(typeOfQuery);
    ghost var env := NodeEnv(query, ty, writer);
    var refList: seq<ReferenceRecord> := [];
    var sectionWritten: Option<DetailedSection> := None;
    var i := 0;
    while i < sections.Length
      invariant 0 <= i <= sections.Length
      invariant WriteUpTo(all, outputs, env, i) == SectionRun(sections[..], refList, sectionWritten, false)
    {
      ghost var before := SectionRun(sections[..], refList, sectionWritten, false);
      assert WriteUpTo(all, outputs, env, i + 1) == StepSection(before, i, outputs, env);
      var failed;
      refList, sectionWritten, failed := WriteSectionInPlace(sections, i, outputs, query, ty, writer,
                                                             refList, sectionWritten);
      if failed {
        FailureIsFinal(all, outputs, env, i + 1, |all|);
        return SectionWriterResult(sections[..], None);
      }
      i := i + 1;
    }
    result := SectionWriterResult(sections[..], Some(refList));
  }

  /**
   * The section writer's promise at the level of its result: the list keeps
   * its length, every section keeps its id and research flag, sections
   * without research come back unchanged, and the references, when
   * returned, are one per pair of a research section and an output with its
   * id, in section order.
   */
  lemma SectionWriterResultShape(all: seq<Section>, outputs: Option<seq<OutputState>>, env: Env)
    ensures var res := DetailedSectionWriter(Some(all), outputs, env);
      && |res.sections| == |all|
      && (forall i :: 0 <= i < |all| ==>
            res.sections[i].sectionId == all[i].sectionId && res.sections[i].research == all[i].research
            && (!all[i].research ==> res.sections[i] == all[i]))
      && (res.references.Some? ==> res.references.value == ExpectedRefs(all, outputs.GetOr([]), env))
  {
    WriteUpToKeeps(all, outputs, env, |all|);
    if !WriteUpTo(all, outputs, env, |all|).failed {
      WriteUpToRefs(all, outputs, env, |all|);
      assert all[..|all|] == all;
    }
  }

  // ---------------------------------------------------------------------
  // Header, footer and report formatter nodes
  // ---------------------------------------------------------------------

  /** One section as the header and footer writers see it. */
  function OverviewEntry(s: Section): string
  {
    "name: " + s.name + " description: " + s.description + " research: " + ShowBool(s.research)
    + " content: " + s.content + " "
  }

  /** The section overview the header and footer writers are given: every section's entry, in list order. */
  function Overview(sections: seq<Section>): string
  {
    ConcatMap(sections, OverviewEntry)
  }

  /** In the overview, section `k`'s entry starts exactly where the entries of the sections before it end. */
  lemma OverviewInOrder(items: seq<Section>, k: nat)
    requires k < |items|
    ensures |Overview(items[..k])| + |OverviewEntry(items[k])| <= |Overview(items)|
    ensures Overview(items)[..|Overview(items[..k])|] == Overview(items[..k])
    ensures Overview(items)[|Overview(items[..k])|..|Overview(items[..k])| + |OverviewEntry(items[k])|] == OverviewEntry(items[k])
  {
    ConcatMapBlockAt(items, OverviewEntry, k);
  }

  /** The header-writing chain: query, classification, overview, current summary, current title; `None` on failure. */
  type HeaderChain = (string, string, string, Option<string>, Option<string>) -> Option<string>

  /** The footer-writing chain: query and overview; `None` on failure. */
  type FooterChain = (string, string) -> Option<string>

  /** Builds the section overview one section at a time, as the header and footer writers do. */
  method BuildOverview(sections: seq<Section>) returns (overview: string)
    ensures overview == Overview(sections)
  {
    overview := "";
    var i := 0;
    while i < |sections|
      invariant 0 <= i <= |sections|
      invariant overview == Overview(sections[..i])
    {
      ConcatMapStep(sections, i, OverviewEntry);
      overview := overview + OverviewEntry(sections[i]);
      i := i + 1;
    }
    assert sections[..i] == sections;
  }

  /**
   * `detailed_header_writer_node`: the new summary only (the title is not
   * part of the update), written from the overview of every section, or
   * `None` when the sections or the header are missing or the chain fails.
   */
  method DetailedHeaderWriterNode(query: string, typeOfQuery: string, header: Option<Header>,
                                  sections: Option<seq<Section>>, chain: HeaderChain)
    returns (summary: Option<string>)
    ensures sections.None? || header.None? ==> summary.None?
    ensures sections.Some? && header.Some? ==>
      summary == chain(query, typeOfQuery, Overview(sections.value), header.value.summary, header.value.title)
  {
    if sections.None? || header.None? {
      return None;
    }
    var sectionString := BuildOverview(sections.value);
    summary := chain(query, typeOfQuery, sectionString, header.value.summary, header.value.title);
  }

  /**
   * `detailed_footer_writer_node`: the conclusion written from the overview
   * of every section, or `None` when the sections are missing or the chain
   * fails.
   */
  method DetailedFooterWriterNode(query: string, sections: Option<seq<Section>>, chain: FooterChain)
    returns (conclusion: Option<string>)
    ensures sections.None? ==> conclusion.None?
    ensures sections.Some? ==> conclusion == chain(query, Overview(sections.value))
  {
    if sections.None? {
      return None;
    }
    var sectionString := BuildOverview(sections.value);
    conclusion := chain(query, sectionString);
  }

  /** The four strings the report formatter chain is given. */
  datatype FormatterInput = FormatterInput(header: string, section: string, conclusion: string, reference: string)

  /** The header part: title and summary, each rendered as an f-string renders an optional text; empty without a header. */
  function HeaderText(header: Option<Header>): string
  {
    var title := if header.None? then "" else ShowOpt(header.value.title);
    var summary := if header.None? then "" else ShowOpt(header.value.summary);
    "Title: " + title + "\n\nSummary: " + summary + "\n\n"
  }

  /** One section for the report formatter: id and name, description, content. */
  function SectionEntry(s: Section): string
  {
    "Section " + s.sectionId + ": " + s.name + "\nDescription: " + s.description + "\nContent: " + s.content + "\n\n"
  }

  /** The sections part: every section's entry, in list order; empty without sections. */
  function SectionsText(sections: Option<seq<Section>>): string
  {
    ConcatMap(sections.GetOr([]), SectionEntry)
  }

  /** The conclusion part; empty conclusion without a footer. */
  function ConclusionText(footer: Option<Footer>): string
  {
    "Conclusion: " + (if footer.None? then "" else footer.value.conclusion) + "\n"
  }

  /** One URL of a reference, followed by a space and a newline. */
  function UrlLine(url: string): string
  {
    url + " \n"
  }

  /** A reference's URLs, one per line. */
  function UrlBlock(urls: seq<string>): string
  {
    ConcatMap(urls, UrlLine)
  }

  /** One reference for the report formatter: its section id and name, and its URLs. */
  function ReferenceEntry(r: ReferenceRecord): string
  {
    "Refrence: " + ShowOpt(r.sectionId) + " Name: " + ShowOpt(r.sectionName) + " url: " + UrlBlock(r.sourceUrl) + " "
  }

  /** The references part: every reference's entry, in list order; empty without references. */
  function ReferencesText(references: Option<seq<ReferenceRecord>>): string
  {
    ConcatMap(references.GetOr([]), ReferenceEntry)
  }

  /** What `report_formatter_node` hands to its chain. */
  function ReportFormatterInput(header: Option<Header>, sections: Option<seq<Section>>, footer: Option<Footer>,
                                references: Option<seq<ReferenceRecord>>): FormatterInput
  {
    FormatterInput(HeaderText(header), SectionsText(sections), ConclusionText(footer), ReferencesText(references))
  }

  /** Builds the sections part one section at a time. */
  method BuildSectionsText(sections: seq<Section>) returns (text: string)
    ensures text == SectionsText(Some(sections))
  {
    text := "";
    var i := 0;
    while i < |sections|
      invariant 0 <= i <= |sections|
      invariant text == SectionsText(Some(sections[..i]))
    {
      ConcatMapStep(sections, i, SectionEntry);
      text := text + SectionEntry(sections[i]);
      i := i + 1;
    }
    assert sections[..i] == sections;
  }

  /** Builds one reference's URL block one URL at a time. */
  method BuildUrlBlock(urls: seq<string>) returns (block: string)
    ensures block == UrlBlock(urls)
  {
    block := "";
    var i := 0;
    while i < |urls|
      invariant 0 <= i <= |urls|
      invariant block == UrlBlock(urls[..i])
    {
      ConcatMapStep(urls, i, UrlLine);
      block := block + UrlLine(urls[i]);
      i := i + 1;
    }
    assert urls[..i] == urls;
  }

  /** Builds the references part one reference at a time, each with its URL block. */
  method BuildReferencesText(references: seq<ReferenceRecord>) returns (text: string)
    ensures text == ReferencesText(Some(references))
  {
    text := "";
    var i := 0;
    while i < |references|
      invariant 0 <= i <= |references|
      invariant text == ReferencesText(Some(references[..i]))
    {
      var r := references[i];
      var urlString := BuildUrlBlock(r.sourceUrl);
      ConcatMapStep(references, i, ReferenceEntry);
      text := text + ("Refrence: " + ShowOpt(r.sectionId) + " Name: " + ShowOpt(r.sectionName) + " url: " + urlString + " ");
      i := i + 1;
    }
    assert references[..i] == references;
  }

  /**
   * `report_formatter_node`: renders the header, the sections, the
   * conclusion and the references, and returns the chain's markdown, or
   * `None` when it fails.
   */
  method ReportFormatterNode(header: Option<Header>, sections: Option<seq<Section>>, footer: Option<Footer>,
                             references: Option<seq<ReferenceRecord>>, chain: FormatterInput -> Option<string>)
    returns (markdown: Option<string>)
    ensures markdown == chain(ReportFormatterInput(header, sections, footer, references))
  {
    var headerTitle := if header.None? then "" else ShowOpt(header.value.title);
    var headerSummary := if header.None? then "" else ShowOpt(header.value.summary);
    var headerString := "Title: " + headerTitle + "\n\nSummary: " + headerSummary + "\n\n";
    var sectionString := BuildSectionsText(sections.GetOr([]));
    var conclusionText := if footer.None? then "" else footer.value.conclusion;
    var conclusionString := "Conclusion: " + conclusionText + "\n";
    var referenceString := BuildReferencesText(references.GetOr([]));
    markdown := chain(FormatterInput(headerString, sectionString, conclusionString, referenceString));
  }

  /** When no URL holds a newline, the URL block has exactly one newline per URL: each URL ends its own line. */
  lemma {:induction false} UrlBlockLines(urls: seq<string>)
    requires forall u :: u in urls ==> '\n' !in u
    ensures multiset(UrlBlock(urls))['\n'] == |urls|
    ensures |UrlBlock(urls)| == |Concat(urls)| + 2 * |urls|
  {
    if |urls| > 0 {
      var init := urls[..|urls| - 1];
      var u := urls[|urls| - 1];
      assert forall x :: x in init ==> x in urls;
      UrlBlockLines(init);
      assert u in urls;
      assert multiset(UrlLine(u)) == multiset(u) + multiset(" \n");
      assert multiset(UrlBlock(urls)) == multiset(UrlBlock(init)) + multiset(UrlLine(u));
    }
  }

  /** In the sections part, section `k`'s entry starts exactly where the entries of the sections before it end. */
  lemma SectionsTextInOrder(items: seq<Section>, k: nat)
    requires k < |items|
    ensures |SectionsText(Some(items[..k]))| + |SectionEntry(items[k])| <= |SectionsText(Some(items))|
    ensures SectionsText(Some(items))[..|SectionsText(Some(items[..k]))|] == SectionsText(Some(items[..k]))
    ensures SectionsText(Some(items))[|SectionsText(Some(items[..k]))|..|SectionsText(Some(items[..k]))| + |SectionEntry(items[k])|] == SectionEntry(items[k])
  {
    ConcatMapBlockAt(items, SectionEntry, k);
  }

  /** In the references part, reference `k`'s entry starts exactly where the entries of the references before it end. */
  lemma ReferencesTextInOrder(items: seq<ReferenceRecord>, k: nat)
    requires k < |items|
    ensures |ReferencesText(Some(items[..k]))| + |ReferenceEntry(items[k])| <= |ReferencesText(Some(items))|
    ensures ReferencesText(Some(items))[..|ReferencesText(Some(items[..k]))|] == ReferencesText(Some(items[..k]))
    ensures ReferencesText(Some(items))[|ReferencesText(Some(items[..k]))|..|ReferencesText(Some(items[..k]))| + |ReferenceEntry(items[k])|] == ReferenceEntry(items[k])
  {
    ConcatMapBlockAt(items, ReferenceEntry, k);
  }

  /** Missing parts give their bare labels: no header, no sections, no footer and no references. */
  lemma EmptyStateFormatterInput()
    ensures ReportFormatterInput(None, None, None, None)
            == FormatterInput("Title: \n\nSummary: \n\n", "", "Conclusion: \n", "")
  {
  }
}
