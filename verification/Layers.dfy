/** A step ends as its session's task ended: the two layers read the same artifacts in the same way. */
module Layers {
  import opened Prelude
  import opened Graphs
  import opened SessionTypes
  import opened SessionTasks
  import opened SessionStore
  import opened WorkflowRun
  import opened RunMoves
  import opened WorkflowStore
  import opened Accounting

  /** An outcome whose summary and blocker are strings, as the container checks before it reports one. */
  predicate Legible(o: Outcome) {
    o.Document? && !o.summary.NotText? && !o.blocker.NotText?
  }

  function StepStateOf(task: TaskState): StepState {
    match task
    case TaskPending | TaskRunning => Running
    case TaskCompleted => Completed
    case TaskBlocked => Blocked
    case TaskFailed | TaskCanceled => Failed
  }

  /** The kind of result that the step's session was started for. */
  predicate Matches(task: Task, step: Step, produces: bool) {
    && task.resultKind == (if step.plan.publishable then PullRequest else if produces then WorkflowChange else WorkflowOutput)
    && !(step.plan.publishable && produces)
  }

  /**
   * A running step takes over its task's state exactly when the task did not end with an illegible outcome: neither
   * layer then rejects what the other accepted.
   */
  lemma LayersAgree(step: Step, task: Task, at: int, produces: bool)
    requires GoodTask(task) && step.state.Running? && Matches(task, step, produces)
    ensures var s := ObserveStep(step, Observation(ReplyFor(task), at), produces);
            && (s.state == StepStateOf(task.state) <==>
                  (task.state.TaskCompleted? || task.state.TaskBlocked? ==> Legible(task.artifacts.outcome)))
            && (s.state == StepStateOf(task.state) || s.state.Failed?)
            && (!task.state.Terminal() ==> s == step)
  {
    if task.state.TaskCompleted? || task.state.TaskBlocked? {
      ReportedVerdict(step, task.artifacts, at, produces);
    }
  }

  /** No task in good order leaves an output on a step that fails: a completed one carries its change. */
  lemma FailureLeavesNoOutput(step: Step, task: Task, at: int, produces: bool)
    requires GoodTask(task) && step.state.Running? && Matches(task, step, produces)
    ensures var s := ObserveStep(step, Observation(ReplyFor(task), at), produces);
            s.state.Failed? ==> s.report.output == step.report.output
  {
    if task.state.TaskCompleted? || task.state.TaskBlocked? {
      OutputOnFailureExactly(step, task.artifacts, at, produces);
    }
  }

  /** A completed task whose summary is not a string fails its step. */
  lemma IllegibleSummaryFails(step: Step, at: int)
    requires step.state.Running? && !step.plan.publishable
    ensures var a := Artifacts(Document(Text("completed"), NotText, Text("")), "", "{}", None);
            var task := Task("t", "p", 1, WorkflowOutput, None, TaskCompleted, a, "", 0, Some(1));
            GoodTask(task) && Matches(task, step, false) && ObserveStep(step, Observation(ReplyFor(task), at), false).state.Failed?
  {}

  /** In a reconcile pass every step whose session has finished legibly ends exactly as its session's latest task. */
  lemma {:induction false} StepsFollowTasks(run: Run, rank: Rank, defs: Snapshots, server: Server, sessions: Sessions, tasks: Tasks,
                         observed: map<string, Observation>, n: string)
    requires Accounted(run, defs, server, sessions, tasks) && GoodRows(sessions, tasks)
    requires Planned(run.header, run.steps, rank)
    requires Witnessed(StartAll(run.steps), observed, sessions, tasks)
    requires n in run.steps && run.steps[n].state.Active() && Finished(observed, n)
    requires run.steps[n].plan.session in sessions ==> Legible(tasks[run.steps[n].plan.session][0].artifacts.outcome)
    ensures var name := run.steps[n].plan.session;
            && name in sessions && tasks[name][0].state.Terminal()
            && ObserveAll(StartAll(run.steps), observed)[n].state == StepStateOf(tasks[name][0].state)
  {
    var started := StartAll(run.steps);
    var name := run.steps[n].plan.session;
    assert n in started && started[n].plan == run.steps[n].plan && started[n].state.Running?;
    assert name in sessions && Latest(tasks[name]).state.Terminal() && observed[n].reply == ReplyFor(Latest(tasks[name]));
    OneInitialTask(run, defs, server, sessions, tasks, n);
    AskedKind(run, rank, n, tasks[name][0]);
    LayersAgree(started[n], tasks[name][0], observed[n].at, ProducesChange(started, n));
  }

  /** In a reconcile pass over accounted sessions no step that fails gets an output. */
  lemma FailedStepsKeepOutput(run: Run, rank: Rank, defs: Snapshots, server: Server, sessions: Sessions, tasks: Tasks,
                              observed: map<string, Observation>, n: string)
    requires Accounted(run, defs, server, sessions, tasks) && GoodRows(sessions, tasks)
    requires Planned(run.header, run.steps, rank)
    requires Witnessed(StartAll(run.steps), observed, sessions, tasks)
    requires n in run.steps && run.steps[n].state.Active() && Finished(observed, n)
    ensures var s := ObserveAll(StartAll(run.steps), observed)[n];
            s.state.Failed? ==> s.report.output == run.steps[n].report.output
  {
    var started := StartAll(run.steps);
    var name := run.steps[n].plan.session;
    assert n in started && started[n].plan == run.steps[n].plan && started[n].state.Running?;
    assert name in sessions && observed[n].reply == ReplyFor(Latest(tasks[name]));
    OneInitialTask(run, defs, server, sessions, tasks, n);
    AskedKind(run, rank, n, tasks[name][0]);
    FailureLeavesNoOutput(started[n], tasks[name][0], observed[n].at, ProducesChange(started, n));
  }

  lemma AskedKind(run: Run, rank: Rank, n: string, task: Task)
    requires Planned(run.header, run.steps, rank) && n in run.steps && task.resultKind == ResultKindOf(run.steps, run.steps[n])
    ensures Matches(task, StartAll(run.steps)[n], ProducesChange(StartAll(run.steps), n))
  {
    assert SameShape(run.steps, StartAll(run.steps));
    ShapeKeepsGraph(run.steps, StartAll(run.steps));
  }
}
