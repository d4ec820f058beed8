/**
 * The graph topology: the three graph builders of
 * backend/src/graph/factory.py (section graph with the approval loop),
 * their variants in src/graph/factory.py (no verify node), and the
 * conditional edge of backend/src/edges.py.
 *
 * Each graph is a transition function: the node run after a given node,
 * one plain edge per node in the order the builders add them, and for the
 * verify node the target `verify_conditional_edge` picks. `Run` follows
 * the transitions from a node; the verdict the verify node leaves in the
 * state is a parameter, `approve(k)` being the verdict of its k-th run.
 */
module Workflow {
  import opened Wrappers
  import Structure

  datatype Node =
    | Start | End
    | Router | HeaderWriter | SectionWriter | FooterWriter | VerifyReport
    | QueryGeneration | ToolOutput
    | DetailedSectionWriter | DetailedHeaderWriter | DetailedFooterWriter | ReportFormatter

  /** The three builders of the backend factory, and the section graph of the other factory. */
  datatype Graph = BackendSection | PlainSection | Research | Writer

  /** `verify_conditional_edge`: the run ends once the framework is approved, and is redrafted from the header otherwise. */
  function VerifyConditionalEdge(reportFramework: bool): (next: Node)
    ensures reportFramework <==> next == End
    ensures !reportFramework <==> next == HeaderWriter
  {
    if reportFramework then End else HeaderWriter
  }

  /** The nodes each builder registers. */
  predicate Registered(g: Graph, n: Node)
  {
    match g
    case BackendSection => n in {Router, HeaderWriter, SectionWriter, FooterWriter, VerifyReport}
    case PlainSection => n in {Router, HeaderWriter, SectionWriter, FooterWriter}
    case Research => n in {QueryGeneration, ToolOutput}
    case Writer => n in {DetailedSectionWriter, DetailedHeaderWriter, DetailedFooterWriter, ReportFormatter}
  }

  /**
   * The node run after `n`, given the verdict in the state; `None` when `n`
   * has no outgoing edge. The section graph of the backend is the straight
   * line router, header, section, footer, verify followed by the
   * conditional edge; the other section graph stops after the footer; the
   * research and writer graphs are straight lines to `END`.
   */
  function Successor(g: Graph, n: Node, approved: bool): (next: Option<Node>)
    ensures next.Some? ==> (n == Start || Registered(g, n)) && (next.value == End || Registered(g, next.value))
  {
    match g
    case BackendSection =>
      (match n
       case Start => Some(Router)
       case Router => Some(HeaderWriter)
       case HeaderWriter => Some(SectionWriter)
       case SectionWriter => Some(FooterWriter)
       case FooterWriter => Some(VerifyReport)
       case VerifyReport => Some(VerifyConditionalEdge(approved))
       case _ => None)
    case PlainSection =>
      (match n
       case Start => Some(Router)
       case Router => Some(HeaderWriter)
       case HeaderWriter => Some(SectionWriter)
       case SectionWriter => Some(FooterWriter)
       case _ => None)
    case Research =>
      (match n
       case Start => Some(QueryGeneration)
       case QueryGeneration => Some(ToolOutput)
       case ToolOutput => Some(End)
       case _ => None)
    case Writer =>
      (match n
       case Start => Some(DetailedSectionWriter)
       case DetailedSectionWriter => Some(DetailedHeaderWriter)
       case DetailedHeaderWriter => Some(DetailedFooterWriter)
       case DetailedFooterWriter => Some(ReportFormatter)
       case ReportFormatter => Some(End)
       case _ => None)
  }

  /** The nodes run, in order, and whether the run stopped on its own (at `END` or at a node without successor). */
  datatype Execution = Execution(trace: seq<Node>, finished: bool)

  /**
   * Running `g` from node `n` for at most `fuel` node runs; `round` counts
   * the runs of the verify node so far.
   */
  function Run(g: Graph, n: Node, approve: nat -> bool, round: nat, fuel: nat): Execution
    decreases fuel
  {
    if n == End then Execution([], true)
    else if fuel == 0 then Execution([], false)
    else
      match Successor(g, n, approve(round))
      case None => Execution([n], true)
      case Some(m) =>
        var rest := Run(g, m, approve, if n == VerifyReport then round + 1 else round, fuel - 1);
        Execution([n] + rest.trace, rest.finished)
  }

  /** Invoking a compiled graph: the run from `START`. */
  function Invoke(g: Graph, approve: nat -> bool, fuel: nat): Execution
  {
    match Successor(g, Start, true)
    case None => Execution([], true)
    case Some(first) => Run(g, first, approve, 0, fuel)
  }

  /** The verdicts of the backend's verify node, which approves on every run. */
  function AutoApprove(k: nat): bool
  {
    Structure.VerifyReportNode().reportFramework
  }

  /** The position of a node along the straight lines of the graphs. */
  function Rank(n: Node): nat
  {
    match n
    case Start => 0
    case Router => 1
    case HeaderWriter => 2
    case SectionWriter => 3
    case FooterWriter => 4
    case VerifyReport => 5
    case QueryGeneration => 1
    case ToolOutput => 2
    case DetailedSectionWriter => 1
    case DetailedHeaderWriter => 2
    case DetailedFooterWriter => 3
    case ReportFormatter => 4
    case End => 6
  }

  /** In the backend section graph every step moves forward, except the redraft from the verify node back to the header. */
  lemma OnlyCycleIsRedraft(n: Node, approved: bool)
    requires Successor(BackendSection, n, approved).Some?
    ensures var m := Successor(BackendSection, n, approved).value;
      Rank(m) > Rank(n) || (n == VerifyReport && m == HeaderWriter && !approved)
  {
  }

  /** The other three graphs have no cycle: every step moves forward. */
  lemma OtherGraphsAcyclic(g: Graph, n: Node, approved: bool)
    requires g != BackendSection
    requires Successor(g, n, approved).Some?
    ensures Rank(Successor(g, n, approved).value) > Rank(n)
  {
  }

  /** One drafting round of the backend section graph. */
  function Round(): seq<Node>
  {
    [HeaderWriter, SectionWriter, FooterWriter, VerifyReport]
  }

  /** `k` drafting rounds one after the other. */
  function Rounds(k: nat): (r: seq<Node>)
    ensures |r| == 4 * k
  {
    if k == 0 then [] else Rounds(k - 1) + Round()
  }

  lemma {:induction false} RoundsSuffix(k: nat)
    ensures Rounds(k + 1) == Round() + Rounds(k)
  {
    if k > 0 {
      RoundsSuffix(k - 1);
      assert Rounds(k + 1) == Rounds(k) + Round();
    }
  }

  /** One drafting round: from the header, four nodes run and the verify node's verdict picks where the run goes on. */
  lemma RoundStep(approve: nat -> bool, round: nat, fuel: nat)
    requires fuel >= 4
    ensures var rest := Run(BackendSection, VerifyConditionalEdge(approve(round)), approve, round + 1, fuel - 4);
      Run(BackendSection, HeaderWriter, approve, round, fuel) == Execution(Round() + rest.trace, rest.finished)
  {
    var g := BackendSection;
    var rest := Run(g, VerifyConditionalEdge(approve(round)), approve, round + 1, fuel - 4);
    var verify := Run(g, VerifyReport, approve, round, fuel - 3);
    assert verify == Execution([VerifyReport] + rest.trace, rest.finished);
    var footer := Run(g, FooterWriter, approve, round, fuel - 2);
    assert footer == Execution([FooterWriter] + verify.trace, rest.finished);
    var section := Run(g, SectionWriter, approve, round, fuel - 1);
    assert section == Execution([SectionWriter] + footer.trace, rest.finished);
    assert Run(g, HeaderWriter, approve, round, fuel) == Execution([HeaderWriter] + section.trace, rest.finished);
  }

  /**
   * From the header, when the verify node rejects `k` times and then
   * approves, the backend section graph drafts `k + 1` rounds and ends.
   */
  lemma {:induction false} RedraftRounds(approve: nat -> bool, round: nat, k: nat, fuel: nat)
    requires forall i :: round <= i < round + k ==> !approve(i)
    requires approve(round + k)
    requires fuel >= 4 * (k + 1)
    ensures Run(BackendSection, HeaderWriter, approve, round, fuel) == Execution(Rounds(k + 1), true)
    decreases k
  {
    RoundStep(approve, round, fuel);
    if k == 0 {
      assert Rounds(1) == Round();
    } else {
      assert !approve(round);
      RedraftRounds(approve, round + 1, k - 1, fuel - 4);
      RoundsSuffix(k);
    }
  }

  /** With the backend's verify node, which always approves, the section graph runs each node exactly once and ends. */
  lemma BackendSectionRunsOnce(fuel: nat)
    requires fuel >= 5
    ensures Invoke(BackendSection, AutoApprove, fuel)
            == Execution([Router, HeaderWriter, SectionWriter, FooterWriter, VerifyReport], true)
  {
    RedraftRounds(AutoApprove, 0, 0, fuel - 1);
    assert Rounds(1) == Round();
  }

  /** From any node of the drafting round, the router is never run again, whatever the verdicts. */
  lemma {:induction false} RouterNotRevisited(n: Node, approve: nat -> bool, round: nat, fuel: nat)
    requires n in {HeaderWriter, SectionWriter, FooterWriter, VerifyReport, End}
    ensures Router !in Run(BackendSection, n, approve, round, fuel).trace
    decreases fuel
  {
    if n != End && fuel > 0 {
      var m := Successor(BackendSection, n, approve(round)).value;
      var next := if n == VerifyReport then round + 1 else round;
      RouterNotRevisited(m, approve, next, fuel - 1);
    }
  }

  /** The router runs exactly once per invocation of the backend section graph, so the classification is never recomputed. */
  lemma RouterRunsOnce(approve: nat -> bool, fuel: nat)
    requires fuel >= 1
    ensures multiset(Invoke(BackendSection, approve, fuel).trace)[Router] == 1
  {
    var rest := Run(BackendSection, HeaderWriter, approve, 0, fuel - 1);
    RouterNotRevisited(HeaderWriter, approve, 0, fuel - 1);
    assert Invoke(BackendSection, approve, fuel).trace == [Router] + rest.trace;
  }

  /** The variant without the verify node runs its four nodes once and stops at the footer writer, whatever the verdicts. */
  lemma PlainSectionRunsOnce(approve: nat -> bool, fuel: nat)
    requires fuel >= 4
    ensures Invoke(PlainSection, approve, fuel) == Execution([Router, HeaderWriter, SectionWriter, FooterWriter], true)
    ensures !Registered(PlainSection, VerifyReport)
  {
    var g := PlainSection;
    var footer := Run(g, FooterWriter, approve, 0, fuel - 3);
    assert footer == Execution([FooterWriter], true);
    var section := Run(g, SectionWriter, approve, 0, fuel - 2);
    assert section == Execution([SectionWriter] + footer.trace, true);
    var header := Run(g, HeaderWriter, approve, 0, fuel - 1);
    assert header == Execution([HeaderWriter] + section.trace, true);
  }

  /** The research graph runs query generation, then the tools, and ends. */
  lemma ResearchRunsOnce(approve: nat -> bool, fuel: nat)
    requires fuel >= 2
    ensures Invoke(Research, approve, fuel) == Execution([QueryGeneration, ToolOutput], true)
  {
    var g := Research;
    assert Run(g, End, approve, 0, fuel - 2) == Execution([], true);
    var tools := Run(g, ToolOutput, approve, 0, fuel - 1);
    assert tools == Execution([ToolOutput], true);
  }

  /** The writer graph runs the section, header and footer writers, then the formatter, and ends. */
  lemma WriterRunsOnce(approve: nat -> bool, fuel: nat)
    requires fuel >= 4
    ensures Invoke(Writer, approve, fuel)
            == Execution([DetailedSectionWriter, DetailedHeaderWriter, DetailedFooterWriter, ReportFormatter], true)
  {
    var g := Writer;
    assert Run(g, End, approve, 0, fuel - 4) == Execution([], true);
    var formatter := Run(g, ReportFormatter, approve, 0, fuel - 3);
    assert formatter == Execution([ReportFormatter], true);
    var footer := Run(g, DetailedFooterWriter, approve, 0, fuel - 2);
    assert footer == Execution([DetailedFooterWriter] + formatter.trace, true);
    var header := Run(g, DetailedHeaderWriter, approve, 0, fuel - 1);
    assert header == Execution([DetailedHeaderWriter] + footer.trace, true);
  }
}
