/**
 * The task registry of the backend service, backend/app/core/pipeline.py:
 * `ResearchPipeline` keeps one record per task, runs the section, research
 * and writer graphs one after the other, and answers status, streaming and
 * cancellation requests.
 *
 * Progress is kept in hundredths (0.33 is 33). The graphs themselves are
 * not run here: each stream is described by how many states it yields and
 * whether it raises afterwards, and the markdown read from the writer's
 * last state is a parameter.
 */
module Pipeline {
  import opened Wrappers

  datatype Status = Pending | Processing | Completed | Failed | Cancelled

  function StatusName(s: Status): string
  {
    match s
    case Pending => "pending"
    case Processing => "processing"
    case Completed => "completed"
    case Failed => "failed"
    case Cancelled => "cancelled"
  }

  datatype Stage = SectionStage | ResearchStage | WriterStage

  /** One task record (the API keys and tracing configuration it also stores are not modelled). */
  datatype Task = Task(status: Status, query: string, sessionId: string, userFeedback: string,
                       currentStage: Option<Stage>, progress: nat, result: Option<string>, error: Option<string>)

  /** A lookup or cancellation refused with a `ValueError`. */
  datatype Result<T> = Ok(value: T) | Error(message: string)

  /** What `get_status` returns. */
  datatype StatusReport = StatusReport(taskId: string, status: Status, currentStage: Option<Stage>,
                                       progress: nat, result: Option<string>, error: Option<string>)

  /** One run of a graph's stream: the states it yields, then the exception it raises, if any. */
  datatype StreamRun = StreamRun(states: nat, raised: Option<string>)

  /** The record `start` stores. */
  function NewTask(query: string, userFeedback: string, sessionId: string): Task
  {
    Task(Pending, query, sessionId, userFeedback, None, 0, None, None)
  }

  function NotFound(taskId: string): string
  {
    "Task " + taskId + " not found"
  }

  /** The record after the failure branch: status and message, with the stage and progress left where they were. */
  function Fail(t: Task, message: string): (t': Task)
    ensures t'.status == Failed && t'.error == Some(message)
    ensures t'.currentStage == t.currentStage && t'.progress == t.progress && t'.result == t.result
  {
    t.(status := Failed, error := Some(message))
  }

  /** The record after a stream has been drained: every yielded state sets the progress to `p`. */
  function Streamed(t: Task, run: StreamRun, p: nat): Task
  {
    if run.states > 0 then t.(progress := p) else t
  }

  /** How a stage ends: the record, and whether the run goes on to the next stage. */
  datatype StageEnd = StageEnd(task: Task, ok: bool)

  /**
   * One stage: sets the stage and its starting progress, drains its stream,
   * and fails on an exception or, with `emptyMessage`, on a stream that
   * yields nothing.
   */
  function StageRun(t: Task, stage: Stage, start: nat, run: StreamRun, p: nat, emptyMessage: string): StageEnd
  {
    var t' := Streamed(t.(currentStage := Some(stage), progress := start), run, p);
    if run.raised.Some? then StageEnd(Fail(t', run.raised.value), false)
    else if run.states == 0 then StageEnd(Fail(t', emptyMessage), false)
    else StageEnd(t', true)
  }

  /** The last step: completed with the markdown when there is a non-empty one, failed otherwise. */
  function Finish(t: Task, markdown: Option<string>): Task
  {
    if markdown.Some? && markdown.value != "" then t.(status := Completed, result := markdown, progress := 100)
    else Fail(t, "Report generated but markdown not found")
  }

  /** The writer stage and the markdown check, after the research stage succeeded. */
  function AfterResearch(t: Task, writer: StreamRun, markdown: Option<string>): Task
  {
    var c := StageRun(t, WriterStage, 66, writer, 99, "Failed to generate final report");
    if !c.ok then c.task else Finish(c.task, markdown)
  }

  /** The research stage and what follows it, after the section stage succeeded. */
  function AfterSection(t: Task, research: StreamRun, writer: StreamRun, markdown: Option<string>): Task
  {
    var b := StageRun(t, ResearchStage, 33, research, 66, "Failed to complete research phase");
    if !b.ok then b.task else AfterResearch(b.task, writer, markdown)
  }

  /**
   * The record after `_execute_pipeline`: processing, then the section,
   * research and writer stages in turn, stopping at the first that fails,
   * then the markdown check.
   */
  function Executed(t: Task, section: StreamRun, research: StreamRun, writer: StreamRun, markdown: Option<string>): Task
  {
    var a := StageRun(t.(status := Processing), SectionStage, 0, section, 33, "Failed to generate report structure");
    if !a.ok then a.task else AfterSection(a.task, research, writer, markdown)
  }

  /** `n` copies of the progress value `p`, one per yielded state. */
  function Repeat(p: nat, n: nat): (r: seq<nat>)
    ensures |r| == n
    ensures forall i :: 0 <= i < n ==> r[i] == p
  {
    if n == 0 then [] else Repeat(p, n - 1) + [p]
  }

  /** The progress values one stage assigns: its starting value, then one per yielded state. */
  function StageLog(start: nat, run: StreamRun, p: nat): seq<nat>
  {
    [start] + Repeat(p, run.states)
  }

  /** The progress values assigned from the writer stage on. */
  function WriterLog(writer: StreamRun, markdown: Option<string>): seq<nat>
  {
    var l := StageLog(66, writer, 99);
    if writer.raised.Some? || writer.states == 0 then l
    else if markdown.Some? && markdown.value != "" then l + [100]
    else l
  }

  /** The progress values assigned from the research stage on. */
  function ResearchLog(research: StreamRun, writer: StreamRun, markdown: Option<string>): seq<nat>
  {
    var l := StageLog(33, research, 66);
    if research.raised.Some? || research.states == 0 then l else l + WriterLog(writer, markdown)
  }

  /** Every progress value an execution assigns, in order. */
  function ProgressLog(section: StreamRun, research: StreamRun, writer: StreamRun, markdown: Option<string>): seq<nat>
  {
    var l := StageLog(0, section, 33);
    if section.raised.Some? || section.states == 0 then l else l + ResearchLog(research, writer, markdown)
  }

  predicate NonDecreasing(xs: seq<nat>)
  {
    forall i, j :: 0 <= i < j < |xs| ==> xs[i] <= xs[j]
  }

  lemma AppendNonDecreasing(a: seq<nat>, b: seq<nat>, bound: nat)
    requires NonDecreasing(a) && NonDecreasing(b)
    requires forall i :: 0 <= i < |a| ==> a[i] <= bound
    requires forall i :: 0 <= i < |b| ==> bound <= b[i]
    ensures NonDecreasing(a + b)
  {
  }

  /** Adding a run of `p`s after values at most `p` keeps a log sorted. */
  lemma ExtendLog(log: seq<nat>, p: nat, n: nat)
    requires NonDecreasing(log)
    requires forall i :: 0 <= i < |log| ==> log[i] <= p
    ensures NonDecreasing(log + Repeat(p, n))
    ensures forall i :: 0 <= i < |log + Repeat(p, n)| ==> (log + Repeat(p, n))[i] <= p
  {
    AppendNonDecreasing(log, Repeat(p, n), p);
  }

  /** The values from the writer stage on: sorted, between 66 and 100. */
  lemma WriterLogSorted(writer: StreamRun, markdown: Option<string>)
    ensures var l := WriterLog(writer, markdown);
      NonDecreasing(l) && forall i :: 0 <= i < |l| ==> 66 <= l[i] <= 100
  {
    ExtendLog([66], 99, writer.states);
    ExtendLog(StageLog(66, writer, 99), 100, 1);
    assert Repeat(100, 1) == [100];
  }

  /** The values from the research stage on: sorted, between 33 and 100. */
  lemma ResearchLogSorted(research: StreamRun, writer: StreamRun, markdown: Option<string>)
    ensures var l := ResearchLog(research, writer, markdown);
      NonDecreasing(l) && forall i :: 0 <= i < |l| ==> 33 <= l[i] <= 100
  {
    ExtendLog([33], 66, research.states);
    WriterLogSorted(writer, markdown);
    AppendNonDecreasing(StageLog(33, research, 66), WriterLog(writer, markdown), 66);
  }

  /** Progress never goes backwards: the log starts at 0, never decreases, and never passes 100. */
  lemma ProgressNeverDecreases(section: StreamRun, research: StreamRun, writer: StreamRun, markdown: Option<string>)
    ensures var log := ProgressLog(section, research, writer, markdown);
      |log| > 0 && log[0] == 0 && NonDecreasing(log) && forall i :: 0 <= i < |log| ==> log[i] <= 100
  {
    ExtendLog([0], 33, section.states);
    ResearchLogSorted(research, writer, markdown);
    AppendNonDecreasing(StageLog(0, section, 33), ResearchLog(research, writer, markdown), 33);
  }

  /** An execution always ends in `completed` or `failed`, whatever the status was, a cancellation included. */
  lemma ExecutionEndsSettled(t: Task, section: StreamRun, research: StreamRun, writer: StreamRun, markdown: Option<string>)
    ensures Executed(t, section, research, writer, markdown).status in {Completed, Failed}
  {
  }

  /** An execution never reads the status, so a cancellation is overwritten by the outcome. */
  lemma ExecutionIgnoresStatus(t: Task, other: Status, section: StreamRun, research: StreamRun, writer: StreamRun,
                               markdown: Option<string>)
    ensures Executed(t.(status := other), section, research, writer, markdown) == Executed(t, section, research, writer, markdown)
  {
  }

  /**
   * A task completes exactly when all three streams yield states without
   * raising and the markdown is non-empty; it then holds the markdown, with
   * the progress at 100 and the writer stage.
   */
  lemma CompletedIffMarkdown(t: Task, section: StreamRun, research: StreamRun, writer: StreamRun, markdown: Option<string>)
    ensures var t' := Executed(t, section, research, writer, markdown);
      t'.status == Completed <==>
        (&& section.raised.None? && section.states > 0
         && research.raised.None? && research.states > 0
         && writer.raised.None? && writer.states > 0
         && markdown.Some? && markdown.value != "")
    ensures var t' := Executed(t, section, research, writer, markdown);
      t'.status == Completed ==>
        t'.result == markdown && t'.progress == 100 && t'.currentStage == Some(WriterStage) && t'.error == t.error
  {
  }

  /** A failure is recorded at the stage where it happened, with the progress that stage had reached. */
  lemma FailureKeepsStage(t: Task, section: StreamRun, research: StreamRun, writer: StreamRun, markdown: Option<string>)
    ensures section.raised.Some? ==>
      Executed(t, section, research, writer, markdown)
        == t.(status := Failed, currentStage := Some(SectionStage), progress := if section.states > 0 then 33 else 0,
              error := section.raised)
    ensures section.raised.None? && section.states > 0 && research.raised.None? && research.states == 0 ==>
      Executed(t, section, research, writer, markdown)
        == t.(status := Failed, currentStage := Some(ResearchStage), progress := 33,
              error := Some("Failed to complete research phase"))
  {
  }

  /** One event of `stream_updates`. */
  datatype Event =
    | Update(stage: Option<Stage>, progress: nat, status: Status)
    | Done(result: Option<string>)
    | Failure(progress: nat, error: Option<string>)

  predicate Active(s: Status)
  {
    s == Pending || s == Processing
  }

  /**
   * The events `stream_updates` yields for the successive snapshots it
   * polls: an update whenever the status differs from the last one
   * reported, while the task is pending or processing, then one final event
   * for a completed or failed task and none for a cancelled one.
   */
  function Updates(polls: seq<Task>, last: Option<Status>): seq<Event>
  {
    if |polls| == 0 then []
    else
      var t := polls[0];
      if Active(t.status) then
        (if last != Some(t.status) then [Update(t.currentStage, t.progress, t.status)] else [])
        + Updates(polls[1..], Some(t.status))
      else if t.status == Completed then [Done(t.result)]
      else if t.status == Failed then [Failure(t.progress, t.error)]
      else []
  }

  /** The final event, if any, for the snapshot that ended the polling. */
  function FinalEvent(rest: seq<Task>): (e: seq<Event>)
    ensures |e| <= 1
  {
    if |rest| == 0 then []
    else if rest[0].status == Completed then [Done(rest[0].result)]
    else if rest[0].status == Failed then [Failure(rest[0].progress, rest[0].error)]
    else []
  }

  /** The status that ends the polling: the first snapshot that is neither pending nor processing, if any. */
  function Settled(polls: seq<Task>): Option<Status>
  {
    if |polls| == 0 then None
    else if Active(polls[0].status) then Settled(polls[1..])
    else Some(polls[0].status)
  }

  /**
   * Only the last event can be a final one, and it is one exactly when the
   * task settled as completed or failed; two updates in a row report
   * different statuses, and updates only report active statuses.
   */
  lemma {:induction false} UpdatesShape(polls: seq<Task>, last: Option<Status>)
    ensures var e := Updates(polls, last);
      && (forall i :: 0 <= i < |e| - 1 ==> e[i].Update?)
      && (forall i :: 0 <= i < |e| && e[i].Update? ==> Active(e[i].status))
      && (forall i :: 0 <= i < |e| - 1 && e[i].Update? && e[i + 1].Update? ==> e[i].status != e[i + 1].status)
      && (|e| > 0 && !e[|e| - 1].Update? <==> Settled(polls) in {Some(Completed), Some(Failed)})
    ensures var e := Updates(polls, last);
      |e| > 0 && e[0].Update? && last.Some? ==> e[0].status != last.value
  {
    if |polls| > 0 && Active(polls[0].status) {
      var t := polls[0];
      UpdatesShape(polls[1..], Some(t.status));
      var rest := Updates(polls[1..], Some(t.status));
      var head: seq<Event> := if last != Some(t.status) then [Update(t.currentStage, t.progress, t.status)] else [];
      assert Updates(polls, last) == head + rest;
    }
  }

  class ResearchPipeline {
    var activeTasks: map<string, Task>

    constructor()
      ensures activeTasks == map[]
    {
      activeTasks := map[];
    }

    /** `start`: stores a pending record under the fresh id `taskId` (a uuid4 in the service) and returns that id. */
    method Start(query: string, userFeedback: string, sessionId: string, taskId: string) returns (id: string)
      modifies this
      ensures id == taskId
      ensures activeTasks == old(activeTasks)[taskId := NewTask(query, userFeedback, sessionId)]
    {
      activeTasks := activeTasks[taskId := NewTask(query, userFeedback, sessionId)];
      id := taskId;
    }

    /** Drains one stream: every state yielded sets the task's progress to `p` and is logged. */
    method DrainStream(taskId: string, run: StreamRun, p: nat) returns (ghost log: seq<nat>)
      requires taskId in activeTasks
      modifies this
      ensures activeTasks == old(activeTasks)[taskId := Streamed(old(activeTasks[taskId]), run, p)]
      ensures log == Repeat(p, run.states)
    {
      log := [];
      var k := 0;
      while k < run.states
        invariant 0 <= k <= run.states
        invariant taskId in activeTasks
        invariant activeTasks == old(activeTasks)[taskId := Streamed(old(activeTasks[taskId]), StreamRun(k, None), p)]
        invariant log == Repeat(p, k)
      {
        activeTasks := activeTasks[taskId := activeTasks[taskId].(progress := p)];
        log := log + [p];
        k := k + 1;
      }
    }

    /** One stage of `_execute_pipeline`, up to and including the failure branch when it fails. */
    method RunStage(taskId: string, stage: Stage, start: nat, run: StreamRun, p: nat, emptyMessage: string)
      returns (ok: bool, ghost log: seq<nat>)
      requires taskId in activeTasks
      modifies this
      ensures var e := StageRun(old(activeTasks[taskId]), stage, start, run, p, emptyMessage);
        activeTasks == old(activeTasks)[taskId := e.task] && ok == e.ok
      ensures log == StageLog(start, run, p)
    {
      activeTasks := activeTasks[taskId := activeTasks[taskId].(currentStage := Some(stage), progress := start)];
      var drained := DrainStream(taskId, run, p);
      log := [start] + drained;
      ok := true;
      if run.raised.Some? {
        activeTasks := activeTasks[taskId := Fail(activeTasks[taskId], run.raised.value)];
        ok := false;
      } else if run.states == 0 {
        activeTasks := activeTasks[taskId := Fail(activeTasks[taskId], emptyMessage)];
        ok := false;
      }
    }

    /** The writer stage and the markdown check of `_execute_pipeline`. */
    method ContinueWithWriter(taskId: string, writer: StreamRun, markdown: Option<string>) returns (ghost log: seq<nat>)
      requires taskId in activeTasks
      modifies this
      ensures activeTasks == old(activeTasks)[taskId := AfterResearch(old(activeTasks[taskId]), writer, markdown)]
      ensures log == WriterLog(writer, markdown)
    {
      ghost var tasks := activeTasks;
      ghost var c := StageRun(activeTasks[taskId], WriterStage, 66, writer, 99, "Failed to generate final report");
      var ok;
      ok, log := RunStage(taskId, WriterStage, 66, writer, 99, "Failed to generate final report");
      if !ok {
        return;
      }
      if markdown.Some? && markdown.value != "" {
        activeTasks := activeTasks[taskId := activeTasks[taskId].(status := Completed, result := markdown, progress := 100)];
        log := log + [100];
      } else {
        activeTasks := activeTasks[taskId := Fail(activeTasks[taskId], "Report generated but markdown not found")];
      }
      assert activeTasks == tasks[taskId := Finish(c.task, markdown)];
    }

    /** The research stage of `_execute_pipeline` and what follows it. */
    method ContinueWithResearch(taskId: string, research: StreamRun, writer: StreamRun, markdown: Option<string>)
      returns (ghost log: seq<nat>)
      requires taskId in activeTasks
      modifies this
      ensures activeTasks == old(activeTasks)[taskId := AfterSection(old(activeTasks[taskId]), research, writer, markdown)]
      ensures log == ResearchLog(research, writer, markdown)
    {
      ghost var tasks := activeTasks;
      ghost var b := StageRun(activeTasks[taskId], ResearchStage, 33, research, 66, "Failed to complete research phase");
      var ok;
      ok, log := RunStage(taskId, ResearchStage, 33, research, 66, "Failed to complete research phase");
      if !ok {
        return;
      }
      var rest := ContinueWithWriter(taskId, writer, markdown);
      log := log + rest;
      assert activeTasks == tasks[taskId := AfterResearch(b.task, writer, markdown)];
    }

    /**
     * `_execute_pipeline`: for an unknown id nothing changes (the lookup
     * raises again inside the handler); otherwise the record ends as
     * `Executed` describes, every other record is untouched, and `log` holds
     * the progress values assigned along the way.
     */
    method Execute(taskId: string, section: StreamRun, research: StreamRun, writer: StreamRun, markdown: Option<string>)
      returns (ghost log: seq<nat>)
      modifies this
      ensures taskId !in old(activeTasks) ==> activeTasks == old(activeTasks)
      ensures taskId in old(activeTasks) ==>
        activeTasks == old(activeTasks)[taskId := Executed(old(activeTasks[taskId]), section, research, writer, markdown)]
      ensures taskId in old(activeTasks) ==> log == ProgressLog(section, research, writer, markdown)
    {
      log := [];
      if taskId !in activeTasks {
        return;
      }
      ghost var tasks := activeTasks;
      ghost var t := activeTasks[taskId];
      activeTasks := activeTasks[taskId := activeTasks[taskId].(status := Processing)];
      ghost var a := StageRun(t.(status := Processing), SectionStage, 0, section, 33, "Failed to generate report structure");
      var ok;
      ok, log := RunStage(taskId, SectionStage, 0, section, 33, "Failed to generate report structure");
      if !ok {
        return;
      }
      var rest := ContinueWithResearch(taskId, research, writer, markdown);
      log := log + rest;
      assert activeTasks == tasks[taskId := AfterSection(a.task, research, writer, markdown)];
    }

    /** `get_status`: a snapshot of the record, or an error for an unknown id; nothing changes. */
    method GetStatus(taskId: string) returns (r: Result<StatusReport>)
      ensures taskId !in activeTasks ==> r == Error(NotFound(taskId))
      ensures taskId in activeTasks ==>
        var t := activeTasks[taskId];
        r == Ok(StatusReport(taskId, t.status, t.currentStage, t.progress, t.result, t.error))
    {
      if taskId !in activeTasks {
        return Error(NotFound(taskId));
      }
      var t := activeTasks[taskId];
      r := Ok(StatusReport(taskId, t.status, t.currentStage, t.progress, t.result, t.error));
    }

    /**
     * `cancel_task`: only a processing task can be cancelled, and only its
     * status changes; an unknown id or any other status is refused and
     * nothing changes.
     */
    method CancelTask(taskId: string) returns (r: Result<()>)
      modifies this
      ensures taskId !in old(activeTasks) ==> r == Error(NotFound(taskId)) && activeTasks == old(activeTasks)
      ensures taskId in old(activeTasks) && old(activeTasks[taskId]).status == Processing ==>
        r == Ok(()) && activeTasks == old(activeTasks)[taskId := old(activeTasks[taskId]).(status := Cancelled)]
      ensures taskId in old(activeTasks) && old(activeTasks[taskId]).status != Processing ==>
        r == Error("Task " + taskId + " cannot be cancelled (status: " + StatusName(old(activeTasks[taskId]).status) + ")")
        && activeTasks == old(activeTasks)
    {
      if taskId !in activeTasks {
        return Error(NotFound(taskId));
      }
      var t := activeTasks[taskId];
      if t.status == Processing {
        activeTasks := activeTasks[taskId := t.(status := Cancelled)];
        r := Ok(());
      } else {
        r := Error("Task " + taskId + " cannot be cancelled (status: " + StatusName(t.status) + ")");
      }
    }

    /**
     * `stream_updates`, given the snapshots of the record its polls observe
     * (the record it looked up first, then one per second): an error for an
     * unknown id, otherwise the events `Updates` describes.
     */
    method StreamUpdates(taskId: string, polls: seq<Task>) returns (r: Result<seq<Event>>)
      ensures taskId !in activeTasks ==> r == Error(NotFound(taskId))
      ensures taskId in activeTasks ==> r == Ok(Updates(polls, None))
    {
      if taskId !in activeTasks {
        return Error(NotFound(taskId));
      }
      var events: seq<Event> := [];
      var lastStatus: Option<Status> := None;
      var i := 0;
      while i < |polls| && Active(polls[i].status)
        invariant 0 <= i <= |polls|
        invariant events + Updates(polls[i..], lastStatus) == Updates(polls, None)
      {
        var t := polls[i];
        assert polls[i..][1..] == polls[i + 1..];
        var head: seq<Event> := if lastStatus != Some(t.status) then [Update(t.currentStage, t.progress, t.status)] else [];
        assert Updates(polls[i..], lastStatus) == head + Updates(polls[i + 1..], Some(t.status));
        events := events + head;
        lastStatus := Some(t.status);
        i := i + 1;
      }
      var final := FinalEvent(polls[i..]);
      assert Updates(polls[i..], lastStatus) == final;
      r := Ok(events + final);
    }
  }

  /** A task that was never cancelled nor started twice goes pending, then completed or failed, once started and run. */
  lemma StartThenExecute(query: string, userFeedback: string, sessionId: string,
                         section: StreamRun, research: StreamRun, writer: StreamRun, markdown: Option<string>)
    ensures var t := Executed(NewTask(query, userFeedback, sessionId), section, research, writer, markdown);
      t.query == query && t.sessionId == sessionId && t.userFeedback == userFeedback && t.status in {Completed, Failed}
      && (t.status == Failed <==> t.error.Some?)
  {
  }
}
