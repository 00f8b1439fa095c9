/** From the container's report to the task and its step: what the container validates is what both layers complete on. */
module Reports {
  import opened Prelude
  import opened SessionTypes
  import opened SessionTasks
  import opened Base64
  import opened TaskArtifacts
  import opened WorkflowRun
  import opened RunMoves
  import opened Accounting
  import opened Layers

  /** Raw JSON text, byte by byte. */
  function TextOfBytes(bytes: seq<Byte>): RawJson {
    seq(|bytes|, i requires 0 <= i < |bytes| => bytes[i] as char)
  }

  /** What the session layer makes of artifacts that were read; the outcome is decoded, the rest is passed on. */
  function Taken(raw: RawArtifacts, decode: seq<Byte> -> Outcome): Artifacts {
    Artifacts(decode(raw.outcome), TextOfBytes(raw.pullRequest), TextOfBytes(raw.workflowOutput), raw.change)
  }

  predicate HasChange(f: Files, json: Json) {
    f.change.Some? && json.change(f.change.value).Some? && ValidChange(json.change(f.change.value).value)
  }

  /** What the container checks before it reports a finished task. */
  predicate Validated(f: Files, kind: ResultKind, storage: Storage, json: Json, decode: seq<Byte> -> Outcome) {
    var outcome := decode(f.outcome);
    && outcome.Document? && outcome.status in {Text("completed"), Text("blocked")}
    && outcome.summary.Text? && outcome.blocker.Text?
    && (outcome.status == Text("completed") ==>
          && (if kind.PullRequest? then f.pullRequest.Some? && f.pullRequest.value != []
              else f.workflowOutput.Some? && f.workflowOutput.value != [])
          && (kind.WorkflowChange? || (kind.PullRequest? && storage.Persistent?) ==> HasChange(f, json)))
  }

  /** The task that is observed when the container has reported these files. */
  function Finished(task: Task, f: Files, json: Json, decode: seq<Byte> -> Outcome, storage: Storage, at: int): Task {
    Observed(task, TaskObservation(PhaseSucceeded, Taken(ArtifactsOf(f, json), decode), ""), storage, at)
  }

  /**
   * A report that the container validated and that fits the message completes or blocks the task, as the outcome says,
   * with exactly the reported artifacts.
   */
  lemma ReportFinishesTask(task: Task, f: Files, oversized: seq<Byte>, json: Json, decode: seq<Byte> -> Outcome, storage: Storage, at: int)
    requires Readable(f, json) && json.valid(oversized) && oversized != [] && |Lines(f)| <= MAX_MESSAGE_BYTES
    requires Validated(f, task.resultKind, storage, json, decode)
    requires GoodTask(task) && !task.state.Terminal()
    ensures Parsed(TerminationMessage(f, oversized), json) == Success(ArtifactsOf(f, json))
    ensures var t := Finished(task, f, json, decode, storage, at);
            && GoodTask(t) && TaskMoves(task, t)
            && (t.state.TaskCompleted? <==> decode(f.outcome).status == Text("completed"))
            && (t.state.TaskBlocked? <==> decode(f.outcome).status == Text("blocked"))
            && t.artifacts == Taken(ArtifactsOf(f, json), decode)
  {
    hide Parsed, Lines, ParseLines, GoodTask;
    ReportRoundTrip(f, oversized, json);
    var o := TaskObservation(PhaseSucceeded, Taken(ArtifactsOf(f, json), decode), "");
    ObservedIsGood(task, o, storage, at);
    ObservedVerdict(task, o, storage, at);
    assert |TextOfBytes(ContentsOf(f.workflowOutput))| == |ContentsOf(f.workflowOutput)|;
    assert |TextOfBytes(ContentsOf(f.pullRequest))| == |ContentsOf(f.pullRequest)|;
  }

  /** And so does the step whose session it was, with the reported output and change. */
  lemma ReportFinishesStep(step: Step, task: Task, f: Files, oversized: seq<Byte>, json: Json, decode: seq<Byte> -> Outcome,
                           storage: Storage, at: int, produces: bool)
    requires Readable(f, json) && json.valid(oversized) && oversized != [] && |Lines(f)| <= MAX_MESSAGE_BYTES
    requires Validated(f, task.resultKind, storage, json, decode)
    requires GoodTask(task) && !task.state.Terminal() && step.state.Running? && Matches(task, step, produces)
    ensures var s := ObserveStep(step, Observation(ReplyFor(Finished(task, f, json, decode, storage, at)), at), produces);
            && (s.state.Completed? <==> decode(f.outcome).status == Text("completed"))
            && (s.state.Blocked? <==> decode(f.outcome).status == Text("blocked"))
            && (s.state.Completed? && !step.plan.publishable ==> s.report.output == TextOfBytes(ContentsOf(f.workflowOutput)))
            && (s.state.Completed? && produces ==> f.change.Some? && s.report.change == json.change(f.change.value))
  {
    hide Parsed, Lines, ParseLines, GoodTask, Readable, Finished, ObserveStep;
    ReportFinishesTask(task, f, oversized, json, decode, storage, at);
    var t := Finished(task, f, json, decode, storage, at);
    ReportedVerdict(step, t.artifacts, at, produces);
    ReportedResult(step, t.artifacts, at, produces);
    LayersAgree(step, t, at, produces);
  }

  /** A report that does not fit fails the task: the container then exits with an error, and its Job fails. */
  lemma OversizedReportFails(task: Task, f: Files, oversized: seq<Byte>, json: Json, decode: seq<Byte> -> Outcome, storage: Storage, at: int)
    requires Readable(f, json) && json.valid(oversized) && oversized != [] && |Lines(f)| > MAX_MESSAGE_BYTES
    ensures var read := RawArtifacts(oversized, [], [], None);
            && Parsed(TerminationMessage(f, oversized), json) == Success(read)
            && Observed(task, TaskObservation(PhaseFailed, Taken(read, decode), ""), storage, at).state.TaskFailed?
  {
    hide Parsed, Lines, ParseLines;
    ReportRoundTrip(f, oversized, json);
  }
}
