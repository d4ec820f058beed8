# deep_research, the deterministic plumbing

A Dafny model of the deterministic plumbing of the deep_research service. The service plans a research report with language-model calls. It then gathers evidence for each section from search tools and writes the report.

The model covers:

- **Evidence normaliser** (`roll_out_output`): turns one section's sparse tool-output record into a text block. Each excerpt is cut at a fixed length. It appends the source URLs to the section's `Reference` object in place.
- **Tool dispatcher** (`get_tool_output`): runs each tool whose query is present and whose name is in the allow-list of the query's classification. The tools run one after another in a fixed order.
- **Research nodes**: one query record per research section, then one output record per query record. Both are tagged with the section id, which is the key that joins the two stages.
- **Writer nodes**:
  - the section writer, which rewrites research sections in place and collects references;
  - the header and footer writers;
  - the report formatter, which assembles the prompt strings.
- **Planning nodes** (router, header, sections, footer, verification): each has a fixed fallback on failure.
- **Graph topology**: the three graph builders of both factories, and the approval loop.
- **Task registry** `ResearchPipeline`: task status, stages, progress, status streaming and cancellation.
- **`SessionManager`**: the chat-session registry.
- **arXiv parser** (`parse_arxiv_text`).

Language-model calls, search tools and GitHub lookups are function parameters.

- A chain answering `None` stands for a failed call: a builder that gave nothing, or an invocation that raised.
- A tool call either answers or raises. The wrappers guard their requests but build their clients outside the guard, so a raise ends the dispatch and the research node answers `None`.

Modules:

- **`Wrappers`, `Text`**: `Option`, and Python's string operations over `seq<char>`. These include `s[:n]`, `join`, `split(",")`, `strip()`, `str(int)`, and the f-string rendering of `None` and booleans.
- **`Models`**: the records of src/models/state.py and src/models/report.py.
  - the five classifications;
  - the classification-to-tools table;
  - the sparse query and output records;
  - `Section`, `DetailedSection`, `Header`, `Footer`;
  - `Reference`, a class the normaliser fills in place.
- **`Formatter`, `Orchestrator`**: the normaliser and the dispatcher. Each is an imperative method proved against a specification function. The dispatcher's nine straight-line steps are grouped into three methods: the search tools, the GitHub tools, and arXiv with Tavily.
- **`Research`, `Writer`, `Structure`**: the graph nodes. Loops are methods with invariants, each proved against a function of its inputs. The section writer rewrites an `array<Section>` in place.
- **`Workflow`**:
  - each graph as a transition function over node names;
  - a fuelled run function;
  - termination and visit-count lemmas.
- **`Pipeline`**: the class `ResearchPipeline` over `map<string, Task>`. Progress is in hundredths.
- **`Sessions`**: the class `SessionManager` over `map<string, Session>`.
- **`Arxiv`**: the parser. Its split and its entry filter are proved once for any separator and any entry parser, then instantiated.

The node state classes (`ReportState`, `ResearchState`, `WriterState`) appear through the parameters of each node:
- the research and writer nodes take a `QueryType`, one of the five literals;
- the planning nodes take `Option<string>`, as `ReportState` admits `None`.

## Model

| member | source | states |
|---|---|---|
| Models.ParseQueryType | src/models/state.py:102-110 | a text read back as a classification is that classification's literal |
| Models.ParseLiteral | src/models/state.py:102-110 | each of the five classifications is read back from its own literal |
| Models.QueryTypeTools | backend/src/tools/orchestrator.py:33 | an unknown classification gets an empty allow-list |
| Models.TableKeys | src/models/state.py:154-168 | the table's keys are exactly the five classification literals |
| Models.ExaAlwaysAllowed | src/models/state.py:155-167 | exa is allowed under every classification |
| Models.GitHubOnlyForProgramming | src/models/state.py:158-166 | a GitHub tool is allowed if and only if the classification is `execution_programming_query` |
| Models.ArxivOnlyForResearch | src/models/state.py:157 | arxiv is allowed if and only if the classification is `research_oriented_query` |
| Models.SerperOnlyComparativeOrResearch | src/models/state.py:156-157 | serper is allowed if and only if the classification is comparative or research-oriented |
| Models.TableNamesAreTools | src/models/state.py:154-168 | every name in the table names one of the nine tools |
| Models.DefaultOutputIsEmpty | src/models/state.py:49-57 | the default output record holds no output for any tool |
| Models.Reference.constructor | src/models/report.py:51-63 | a new Reference has no section name, no section id and an empty URL list |
| Models.Reference.Snapshot | src/nodes/writer.py:46 | the `dict()` copy the writer appends; its contract gives the copied fields, and `Writer.ReferenceFor` builds on it |
| Text.Take | backend/src/tools/formatter.py:19 | `s[:n]` is the prefix of `s` of length `min(len(s), n)` |
| Text.Strip | backend/src/helpers/parsers.py:10 | `strip()` removes only the leading and trailing whitespace: the result is the slice of the text after its leading whitespace, followed only by whitespace, and it neither starts nor ends with whitespace |
| Text.SplitChar | backend/src/helpers/parsers.py:24-26 | `split(",")` gives at least one piece, none holding a comma |
| Text.SplitCharJoin | backend/src/helpers/parsers.py:24-26 | joining the pieces of `split(c)` with `c` gives back the text |
| Text.SplitCharCount | backend/src/helpers/parsers.py:24-26 | `split(c)` has one more piece than the text has occurrences of `c` |
| Text.IndexOf | backend/src/helpers/parsers.py:14-17 | the search finds the leftmost occurrence of a literal label, or reports that there is none |
| Formatter.DuckDuckGoEntry | backend/src/tools/formatter.py:18-20 | a DuckDuckGo entry is at most 1002 characters: the excerpt is cut at 1000 |
| Formatter.ExaEntry | backend/src/tools/formatter.py:26-28 | an Exa entry is at most 1003 characters: the joined highlights are cut at 1000 |
| Formatter.OrganicEntry | backend/src/tools/formatter.py:34-36 | a Serper entry is at most 2000 characters |
| Formatter.TavilyEntry | backend/src/tools/formatter.py:77-79 | a Tavily entry is at most 500 characters |
| Formatter.ShownAuthors | backend/src/tools/formatter.py:69 | an arXiv entry shows the first `min(4, n)` authors, in order |
| Formatter.EvidenceUrlsSources | backend/src/tools/formatter.py:15-80 | a URL is collected if and only if it is a hit's own link or a GitHub page synthesised from a login or full name |
| Formatter.EvidenceUrlsCount | backend/src/tools/formatter.py:15-80 | one URL per search hit, GitHub record and language-search repository; none per paper |
| Formatter.ArxivAddsNoUrls | backend/src/tools/formatter.py:65-72 | arXiv output never changes the URL list |
| Formatter.EmptyResultsHeadings | backend/src/tools/formatter.py:15-80 | an empty DuckDuckGo or Exa list emits nothing; a present Serper, Tavily or language-search record with no items emits its heading; the sentinel arXiv text emits the heading alone |
| Formatter.EmptyRecordGivesNothing | backend/src/tools/formatter.py:15-80 | a record without outputs gives no text and no URLs |
| Formatter.CappedBlockBounds | backend/src/tools/formatter.py:15-80 | each capped tool's block is at most its heading plus its cap per item |
| Formatter.RollOutOutput | backend/src/tools/formatter.py:8-82 | sets the reference's section name and id from the section; appends the record's URLs after the existing ones; returns the nine blocks in the fixed tool order |
| Formatter.RollOutDuckDuckGo | backend/src/tools/formatter.py:15-21 | the DuckDuckGo loop gives its block and appends one link per hit, in hit order |
| Formatter.RollOutExa | backend/src/tools/formatter.py:23-29 | the Exa loop gives its block and appends one URL per hit, in hit order |
| Formatter.RollOutSerper | backend/src/tools/formatter.py:31-37 | the Serper loop gives its block and appends one link per organic result, in order |
| Formatter.RollOutGitHubUser | backend/src/tools/formatter.py:39-43 | a user record gives its block and appends `https://github.com/<login>` |
| Formatter.RollOutGitHubRepo | backend/src/tools/formatter.py:45-50 | a repo record gives its block and appends `https://github.com/<full_name>` |
| Formatter.RollOutGitHubOrg | backend/src/tools/formatter.py:52-57 | an org record gives its block and appends `https://github.com/<login>` |
| Formatter.RollOutGitHubLanguage | backend/src/tools/formatter.py:59-63 | the language-search loop gives its block and appends one URL per repository, in order |
| Formatter.RollOutArxiv | backend/src/tools/formatter.py:65-72 | the arXiv loop gives its block and touches no reference |
| Formatter.RollOutTavily | backend/src/tools/formatter.py:74-80 | the Tavily loop gives its block and appends one URL per result, in order |
| Orchestrator.Gate | backend/src/tools/orchestrator.py:36-37 | the definition of one gated field, on which `FieldSetIffRunsTool` and `DisallowedQueryIgnored` rest: set when the query is present, the tool allowed and its call answers, and then the answer |
| Orchestrator.InvokedUpToMembers | backend/src/tools/orchestrator.py:36-73 | the first `k` steps call exactly the running tools placed before position `k` |
| Orchestrator.InvokedUpToInOrder | backend/src/tools/orchestrator.py:36-73 | the first `k` steps call their tools in the fixed order, none twice |
| Orchestrator.InvokedSpec | backend/src/tools/orchestrator.py:36-73 | a dispatch in which nothing raises calls exactly the tools that run, each once, in the fixed order |
| Orchestrator.RaisedUpToIff | backend/src/tools/orchestrator.py:36-73 | the first `k` steps raise if and only if some running tool placed before position `k` raises |
| Orchestrator.RaiseIsFinal | backend/src/tools/orchestrator.py:36-73 | after a raise no further tool is called |
| Orchestrator.AttemptedUpToSpec | backend/src/tools/orchestrator.py:36-73 | the calls made are a prefix of the calls of a dispatch in which nothing raises, and all of them when nothing raised; a call that raised is the last one made |
| Orchestrator.RaiseEndsDispatch | backend/src/tools/orchestrator.py:36-73 | a raise at step `k` leaves no record, with the calls those of the first `k + 1` steps |
| Orchestrator.CallIfAllowed | backend/src/tools/orchestrator.py:36-37 | one gated step: the field is the gated answer, the step reports whether its call raised, and the call log grows by this step |
| Orchestrator.RunSearchTools | backend/src/tools/orchestrator.py:36-43 | the DuckDuckGo, Exa and Serper steps: on a raise the dispatch has no record and its calls end; otherwise the record and log of the first three steps |
| Orchestrator.RunGitHubTools | backend/src/tools/orchestrator.py:45-67 | the four GitHub steps, continuing the first three: on a raise the dispatch has no record and its calls end; otherwise the record and log of the first seven steps |
| Orchestrator.RunPaperAndTavilyTools | backend/src/tools/orchestrator.py:69-73 | the arXiv and Tavily steps: on a raise the dispatch has no record and its calls end; otherwise the full record and log |
| Orchestrator.RunAllowedTools | backend/src/tools/orchestrator.py:30-75 | starting from an empty record, the nine steps give the dispatch result (no record when a call raised) and the log of the calls actually made |
| Orchestrator.GetToolOutput | backend/src/tools/orchestrator.py:15-75 | the result is the dispatch under the classification's allow-list (empty when unknown), and so is the log of the calls made |
| Orchestrator.DispatchNoneIffSomeToolRaises | backend/src/tools/orchestrator.py:36-75 | the dispatch gives no record if and only if some tool that runs raises |
| Orchestrator.FieldSetIffRunsTool | backend/src/tools/orchestrator.py:36-73 | when the dispatch gives a record, a tool's output is set if and only if its query is present and the classification allows it |
| Orchestrator.UnknownClassificationRunsNothing | backend/src/tools/orchestrator.py:33 | for an unknown classification no tool runs, no call is made and the record stays empty |
| Orchestrator.GitHubOutputOnlyForProgramming | backend/src/tools/orchestrator.py:45-67 | a GitHub output is in the record only for `execution_programming_query` |
| Orchestrator.DisallowedQueryIgnored | backend/src/tools/orchestrator.py:36-73 | a query for a disallowed tool changes neither the result, nor which tools run, nor which calls are made |
| Research.SectionPrompt | src/nodes/research.py:17 | the section text is the name, description and content with 35 label characters |
| Research.ResearchSections | src/nodes/research.py:16 | the research sections are exactly the sections with `research` set |
| Research.FailureIsFinal | src/nodes/research.py:31-33 | once a chain call raises, the node's result is `None` |
| Research.NoneIffSomeChainRaises | src/nodes/research.py:14-33 | the queries are `None` if and only if the chain raises for some research section |
| Research.QueriesComeFromResearchSections | src/nodes/research.py:14-29 | every record comes from a research section whose chain answered with it; there are no more records than research sections |
| Research.OneQueryPerResearchSection | src/nodes/research.py:14-29 | when every chain answers, there is one record per research section, in order, tagged with its id |
| Research.NoResearchNoQueries | src/nodes/research.py:14-30 | without research sections the queries are `[]` |
| Research.QueryGenerationNode | src/nodes/research.py:7-33 | the loop yields the node's query list for the given sections, or `[]` when the sections are missing |
| Research.OutputFor | src/nodes/research.py:55-71 | no output record if and only if a tool that runs for the query record raises; otherwise it carries the query record's section id |
| Research.ToolOutputs | src/nodes/research.py:42-76 | when present, there is one output record per query record |
| Research.ToolOutputsNoneIffSomeRaises | src/nodes/research.py:49-76 | the outputs are `None` if and only if a tool that runs for some query record raises |
| Research.OutputFailureIsFinal | src/nodes/research.py:74-76 | once a raise has ended the loop, the node's result is `None` |
| Research.ToolOutputsPointwise | src/nodes/research.py:43-71 | when the outputs exist, the `j`-th is the dispatch of the `j`-th query record under the same id |
| Research.ToolOutputNode | src/nodes/research.py:35-76 | the loop yields one output per query record, with the state's classification passed unchanged; missing queries give `[]`; a raising tool gives `None` |
| Research.ResearchStageJoin | src/nodes/research.py:27-76 | when every chain answers, the stage gives `None` if and only if a tool raises, and otherwise one output per research section, in order, tagged with that section's id |
| Writer.Rewrite | src/nodes/writer.py:57-59 | a rewrite replaces name, description and content; id and research flag are kept |
| Writer.ReferenceFor | src/nodes/writer.py:43-46 | a match's reference names the section and carries its id |
| Writer.Ask | src/nodes/writer.py:48-55 | recording an answer leaves sections and references alone; a failed call ends the run |
| Writer.MatchOutputs | src/nodes/writer.py:41-55 | the inner loop never changes the section list |
| Writer.StepSection | src/nodes/writer.py:23-59 | a pass keeps the number of sections |
| Writer.WriteUpTo | src/nodes/writer.py:23-59 | the outer loop keeps the number of sections |
| Writer.MatchFailureIsFinal | src/nodes/writer.py:41-55 | after a failure the remaining outputs change nothing |
| Writer.FailureIsFinal | src/nodes/writer.py:65-72 | after a failure the remaining sections change nothing |
| Writer.MatchingRefs | src/nodes/writer.py:41-46 | a section gets at most one reference per output |
| Writer.LastMatch | src/nodes/writer.py:41-42 | the last matching output has the section's id; with no match, no output has it |
| Writer.MatchOutputsResult | src/nodes/writer.py:41-59 | a successful inner loop adds exactly the section's matching references; its answer is that of the last match, or the earlier answer |
| Writer.StepSectionKeeps | src/nodes/writer.py:30-59 | a pass changes only the visited section; never its id or flag; never a section without research |
| Writer.WriteUpToKeeps | src/nodes/writer.py:23-59 | every section keeps its id and flag; sections without research and sections not yet visited are unchanged |
| Writer.WriteUpToRefs | src/nodes/writer.py:41-46 | a successful run holds one reference per pair of a research section and an output with its id, in section order |
| Writer.ResearchNeedsOutputs | src/nodes/writer.py:41 | reaching a research section without an output list fails |
| Writer.ResearchSectionRewritten | src/nodes/writer.py:21-59 | a research section holds the answer for its last matching output; with no match it holds the previous pass's answer, and the pass fails when there is none |
| Writer.MatchAndWrite | src/nodes/writer.py:41-55 | the inner loop's method meets `MatchOutputs` |
| Writer.WriteOneSection | src/nodes/writer.py:24-55 | one pass up to the update meets `StepSection`; a successful research pass has an answer |
| Writer.WriteSectionInPlace | src/nodes/writer.py:23-59 | one pass with its in-place update turns the array into the sections `StepSection` gives |
| Writer.DetailedSectionWriterNode | src/nodes/writer.py:13-72 | the node's result is the fold over the sections; the caller's array ends as the returned list, including after a failure |
| Writer.SectionWriterResultShape | src/nodes/writer.py:13-72 | the result keeps length, ids and flags; sections without research are unchanged; references, when present, are one per matching pair, in order |
| Writer.OverviewInOrder | src/nodes/writer.py:84-90 | section `k`'s entry starts in the overview exactly where the entries of sections `0..k-1` end |
| Writer.BuildOverview | src/nodes/writer.py:83-90 | the loop builds the overview of every section, in order |
| Writer.DetailedHeaderWriterNode | src/nodes/writer.py:74-105 | only a new summary, from the overview, current summary and title; `None` when sections or header are missing or the chain fails |
| Writer.DetailedFooterWriterNode | src/nodes/writer.py:107-132 | the conclusion from the overview; `None` when sections are missing or the chain fails |
| Writer.BuildSectionsText | src/nodes/writer.py:143-152 | the loop builds the sections part, one block per section, in order |
| Writer.BuildUrlBlock | src/nodes/writer.py:161-163 | the loop builds a reference's URL lines |
| Writer.BuildReferencesText | src/nodes/writer.py:158-165 | the loop builds the references part, one entry per reference, in order |
| Writer.ReportFormatterNode | src/nodes/writer.py:134-179 | the markdown is the chain's answer for the four assembled parts, or `None` on failure |
| Writer.UrlBlockLines | src/nodes/writer.py:161-163 | each URL ends its own line: one newline and two extra characters per URL |
| Writer.SectionsTextInOrder | src/nodes/writer.py:145-152 | section `k`'s block starts exactly where the blocks of sections `0..k-1` end |
| Writer.ReferencesTextInOrder | src/nodes/writer.py:158-165 | reference `k`'s block starts exactly where the blocks of references `0..k-1` end |
| Writer.EmptyStateFormatterInput | src/nodes/writer.py:138-165 | missing parts give their bare labels |
| Structure.RouterNode | backend/src/nodes/router.py:6-15 | the chain is asked with the user's query; on success the node answers the chain's raw answer, unchecked; on failure it answers the fixed fallback `factual_query` |
| Structure.RouterFallbackIsKnown | backend/src/nodes/router.py:15 | the fallback parses as the factual classification, under which exactly DuckDuckGo, Exa and Tavily may run |
| Structure.UncheckedRouterAnswer | backend/src/nodes/router.py:11-12 | the router passes an unlisted answer on unchanged; it is no classification literal, so the `ReportState` conversion after the section stage rejects it; it would allow no tool |
| Structure.HeaderWriterNode | backend/src/nodes/structure.py:10-31 | the chain is asked with the query, the classification and the user's feedback from the last review; on success the node answers the chain's title and summary; on failure an empty title and an empty summary |
| Structure.SectionWriterNode | backend/src/nodes/structure.py:33-52 | without a header the node answers `[]`; with one, the chain is asked with the query, the classification and the header's title and summary, and the node answers the generated list as given (no length bound, no id check), or `[]` when the call fails |
| Structure.FooterContextInOrder | backend/src/nodes/structure.py:61-67 | section `k`'s entry starts exactly where the entries of sections `0..k-1` end, so nothing is inserted between sections |
| Structure.FooterContextLength | backend/src/nodes/structure.py:61-67 | the context is exactly 30 label characters per section plus the section texts |
| Structure.FooterWriterNode | backend/src/nodes/structure.py:54-80 | the loop builds the footer context; the conclusion is the chain's, or `""` without sections or on failure |
| Structure.VerifyReportNode | backend/src/nodes/verification.py:5-13 | always approves, with the feedback reset to a single space |
| Workflow.VerifyConditionalEdge | backend/src/edges.py:5-6 | `END` if and only if approved; the header writer if and only if rejected |
| Workflow.Successor | backend/src/graph/factory.py:19-24 | every edge joins registered nodes, `START` or `END` |
| Workflow.RoundStep | backend/src/graph/factory.py:20-24 | from the header, four nodes run; then the verdict picks the next node |
| Workflow.OnlyCycleIsRedraft | backend/src/graph/factory.py:19-24 | every step moves forward except verify → header on rejection |
| Workflow.OtherGraphsAcyclic | backend/src/graph/factory.py:29-55 | the research, writer and plain section graphs only move forward |
| Workflow.RedraftRounds | backend/src/graph/factory.py:21-24 | `k` rejections then an approval run `k + 1` drafting rounds and end |
| Workflow.BackendSectionRunsOnce | backend/src/graph/factory.py:17-24 | with the auto-approving verify node, each node runs once and the run ends |
| Workflow.RouterNotRevisited | backend/src/edges.py:6 | after the router, whatever the verdicts, the router never runs again |
| Workflow.RouterRunsOnce | backend/src/graph/factory.py:19-24 | the router runs exactly once per invocation |
| Workflow.PlainSectionRunsOnce | src/graph/factory.py:10-23 | no verify node: four nodes once, stopping after the footer writer |
| Workflow.ResearchRunsOnce | backend/src/graph/factory.py:34-36 | query generation, then tool output, then the end |
| Workflow.WriterRunsOnce | backend/src/graph/factory.py:48-52 | section, header, footer, formatter, each once, then the end |
| Pipeline.Fail | backend/app/core/pipeline.py:141-143 | failed with the message; stage, progress and result kept |
| Pipeline.WriterLogSorted | backend/app/core/pipeline.py:110-139 | writer-stage progress is sorted and between 66 and 100 |
| Pipeline.ResearchLogSorted | backend/app/core/pipeline.py:88-139 | progress from the research stage on is sorted and between 33 and 100 |
| Pipeline.ProgressNeverDecreases | backend/app/core/pipeline.py:42-143 | progress starts at 0, never decreases and never passes 100 |
| Pipeline.ExecutionEndsSettled | backend/app/core/pipeline.py:42-143 | an execution ends completed or failed |
| Pipeline.ExecutionIgnoresStatus | backend/app/core/pipeline.py:42-143 | the outcome does not depend on the status, so a cancellation is overwritten |
| Pipeline.CompletedIffMarkdown | backend/app/core/pipeline.py:133-139 | completed if and only if every stream yields without raising and the markdown is non-empty; then the result is the markdown at 100 in the writer stage |
| Pipeline.FailureKeepsStage | backend/app/core/pipeline.py:141-143 | a failure is recorded at its own stage, with that stage's progress |
| Pipeline.FinalEvent | backend/app/core/pipeline.py:182-196 | at most one final event |
| Pipeline.UpdatesShape | backend/app/core/pipeline.py:169-196 | only the last event can be final, and it is final exactly for completed or failed; consecutive updates differ; updates report active statuses only |
| Pipeline.ResearchPipeline.constructor | backend/app/core/pipeline.py:8-10 | no tasks |
| Pipeline.ResearchPipeline.Start | backend/app/core/pipeline.py:12-40 | stores a pending record under the fresh id and returns that id |
| Pipeline.ResearchPipeline.DrainStream | backend/app/core/pipeline.py:70-79 | every yielded state sets the stage's progress |
| Pipeline.ResearchPipeline.RunStage | backend/app/core/pipeline.py:88-106 | one stage: its name and starting progress, the stream, and failure on an exception or an empty stream |
| Pipeline.ResearchPipeline.ContinueWithWriter | backend/app/core/pipeline.py:110-139 | the writer stage and the markdown check |
| Pipeline.ResearchPipeline.ContinueWithResearch | backend/app/core/pipeline.py:88-139 | the research stage and what follows it |
| Pipeline.ResearchPipeline.Execute | backend/app/core/pipeline.py:42-143 | an unknown id changes nothing; otherwise only the task's record changes, as `Executed` describes |
| Pipeline.ResearchPipeline.GetStatus | backend/app/core/pipeline.py:145-160 | a snapshot of the record, or the not-found error; nothing changes |
| Pipeline.ResearchPipeline.CancelTask | backend/app/core/pipeline.py:198-207 | only a processing task becomes cancelled; an unknown id or any other status is refused and nothing changes |
| Pipeline.ResearchPipeline.StreamUpdates | backend/app/core/pipeline.py:162-196 | the not-found error, or the events for the polled snapshots |
| Pipeline.StartThenExecute | backend/app/core/pipeline.py:12-143 | a started, executed task keeps its query, session and feedback, and ends completed or failed |
| Sessions.AddChatIdempotent | app/core/session_manager.py:24-26 | adding a chat twice is the same as adding it once |
| Sessions.AddChatContents | app/core/session_manager.py:24-26 | the chats become the old ones plus the new one, earlier order kept, no chat listed twice |
| Sessions.AddChatFrame | app/core/session_manager.py:22-26 | an unknown session is a no-op; other sessions and the key set are unchanged |
| Sessions.SessionManager.constructor | app/core/session_manager.py:6-7 | no sessions |
| Sessions.SessionManager.CreateSession | app/core/session_manager.py:9-17 | stores an empty session under the fresh id and returns it |
| Sessions.SessionManager.GetSession | app/core/session_manager.py:19-21 | the stored session, or `None` where the lookup raises |
| Sessions.SessionManager.AddChat | app/core/session_manager.py:22-26 | the registry becomes `WithChat` of the old one, and each chat stays listed once |
| Arxiv.SplitBefore | backend/src/helpers/parsers.py:10 | the split gives at least one part |
| Arxiv.SplitBeforeJoin | backend/src/helpers/parsers.py:10 | joining the parts with the dropped character gives back the text |
| Arxiv.SplitBeforeShape | backend/src/helpers/parsers.py:10 | for a pattern whose first character does not recur, later parts start with the rest of the pattern and no part holds the pattern |
| Arxiv.SplitEntriesJoin | backend/src/helpers/parsers.py:10 | joining the entries with newlines gives back the text |
| Arxiv.SplitEntriesShape | src/utilities/parsers.py:10 | entries after the first start with `Published:`; no entry holds another break |
| Arxiv.LineOf | backend/src/helpers/parsers.py:14-16 | `(.*)` is the text up to the first newline |
| Arxiv.LineField | backend/src/helpers/parsers.py:14-16 | a field exists if and only if its label occurs; it holds no newline |
| Arxiv.SummaryField | backend/src/helpers/parsers.py:17 | the summary exists if and only if `Summary:` occurs |
| Arxiv.Authors | backend/src/helpers/parsers.py:24-26 | one author more than there are commas, none holding a comma |
| Arxiv.ParseEntry | backend/src/helpers/parsers.py:14-29 | a paper if and only if all four labels occur; its fields are stripped, title and date fit on one line, and there is at least one author |
| Arxiv.CollectMembers | backend/src/helpers/parsers.py:13-29 | a value is collected if and only if some element yields it; there are no more values than elements |
| Arxiv.Parsed | backend/src/helpers/parsers.py:8-10 | the no-result variant if and only if the text is the sentinel, whose message is kept |
| Arxiv.ParseArxivText | backend/src/helpers/parsers.py:6-31 | the loop yields the papers of the entries, in order, and passes the sentinel through |
| Arxiv.ParseEntriesMembers | src/utilities/parsers.py:13-25 | each paper comes from an entry with all four labels; every such entry gives one; no more papers than entries |
| Arxiv.NoLabelsNoPapers | backend/src/helpers/parsers.py:17-19 | entries without `Summary:` give no paper |

## Left out

- **Language-model chains, search tools and GitHub lookups**: these are foreign calls. They are function parameters. A failed chain is `None`, and a raising tool call is `Raised`.
- Formatter.RollOutOutput: does not model the `(None, None)` exception return. The function only reads fields of a well-typed record and appends to a list, so it has no raising step for the model to capture.
- **What makes a tool call raise** (a missing key, a failed client construction): a raising call is `Raised` in the tool suite, without its cause.
- **src/tools/formatter.py and src/tools/orchestrator.py** are not part of this model. The research and writer nodes import them; the backend copies stand in for them.
- **backend/src/models/state.py** is not part of this model. Its table is taken to equal the one in src/models/state.py.
- **LangGraph state merging, checkpointing and `thread_id` resumption**: these are library internals. Nodes return their update values, and the `{"sections": {...}}` wrappers are flattened to lists.
- **Pipeline.ResearchPipeline.Execute**: runs as one sequential step over an abstract description of each stream.
  - `asyncio.create_task`, the polling sleep and interleavings with `cancel_task` are concurrency, and are not modelled.
  - Their effect on the outcome is stated by `ExecutionIgnoresStatus`.
  - The markdown read from the writer's last state is a parameter. backend/app/core/pipeline.py line 133 reads it with `getattr` from the last streamed chunk. The other two stages read their chunks as tuples holding a mapping (lines 85 and 107). If the writer's chunks are mappings too, that read always gives `None` and the task can never complete. The chunk shape belongs to the graph library and is not part of this model, so the completed branch of `CompletedIffMarkdown` is stated for a markdown the read did find.
  - Failures of the state conversions between stages count as the stream's exception.
- **Pipeline.ResearchPipeline.StreamUpdates**: the snapshots its polls observe are a parameter.
- **Floats, API keys and tracing**:
  - progress floats are integer hundredths;
  - the API keys, the tracing configuration and graph creation are configuration, and are not modelled.
- **Fresh ids and timestamps**: uuid4 values and `datetime.now()` are parameters. This covers the default `Section.section_id`.
- **Sessions.SessionManager.GetSession**: returns a copy of the session rather than the live dictionary. The `KeyError` for an unknown id is `None`.
- **Workflow.Run**: runs for at most `fuel` node runs. A run out of fuel reports itself unfinished.
- **Arxiv.LineField**: Python's `\s` and `str.strip()` whitespace are approximated by `Text.IsSpace`, a fixed list of Unicode whitespace characters.
- **A footer whose conclusion is `None`** (after a failed footer writer) is modelled as an absent footer in the formatter input.
- **Header and footer writer answers**: these are the chains' text, standing for `response.content`.
