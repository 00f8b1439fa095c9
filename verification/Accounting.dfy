/** How the durable sessions of a run account for its steps, whatever has crashed in between. */
module Accounting {
  import opened Prelude
  import opened SessionTypes
  import opened SessionTasks
  import opened SessionStore
  import opened SessionControl
  import opened Names
  import opened WorkflowRun
  import opened Scheduling
  import opened RunMoves
  import opened RunHistory
  import opened WorkflowStore
  import opened Graphs
  import opened DnsNames

  /** What every session of one server is started with. */
  datatype Server = Server(scope: string, image: string)

  /** A record and its tasks as a start for this request leaves them, however far its one task has come since. */
  ghost predicate SessionFor(d: Definition, r: StartRequest, server: Server, record: Record, history: seq<Task>) {
    && record == InitialRecord(d, r, server.scope, server.image, record.createdAt).(deletion := record.deletion)
    && |history| == 1
    && TaskMoves(InitialTask(r, record.createdAt), history[0])
  }

  /** The recorded session is the one that dispatching the step asks for. */
  ghost predicate Dispatched(run: Run, defs: Snapshots, server: Server, record: Record, history: seq<Task>, n: string)
    requires n in run.steps
  {
    var s := run.steps[n];
    && HandoffReady(run.steps, s) && s.plan.agent in defs
    && SessionFor(defs[s.plan.agent], Normalized(defs[s.plan.agent], Request(run.header, run.steps, s)), server, record, history)
  }

  /** What the recorded session of a step says about the step. */
  ghost predicate InStep(run: Run, s: Step, record: Record, task: Task) {
    && !s.state.Pending? && !s.state.Skipped?
    && (s.state.Terminal() ==> task.state.Terminal())
    && (s.state.Completed? ==> !task.state.TaskCanceled?)
    && (s.state.Active() && !run.cancelRequested ==> record.deletion.None? && !task.state.TaskCanceled?)
    && (record.deletion == Some(true) ==> run.state.RunDeleting?)
  }

  predicate Retains(defs: Snapshots, s: Step) {
    s.plan.agent in defs && defs[s.plan.agent].storage.Persistent?
  }

  /** When a step may have no recorded session. */
  ghost predicate MayBeAbsent(run: Run, defs: Snapshots, s: Step) {
    && (s.state.Running? ==> run.cancelRequested)
    && (s.state.Completed? && Retains(defs, s) ==> run.state.RunDeleting?)
  }

  ghost predicate StepAccounted(run: Run, defs: Snapshots, server: Server, sessions: Sessions, tasks: Tasks, n: string)
    requires n in run.steps
  {
    var s := run.steps[n];
    if s.plan.session in sessions then
      && s.plan.session in tasks
      && Dispatched(run, defs, server, sessions[s.plan.session], tasks[s.plan.session], n)
      && InStep(run, s, sessions[s.plan.session], tasks[s.plan.session][0])
    else MayBeAbsent(run, defs, s)
  }

  ghost predicate DistinctSessions(steps: Steps) {
    forall m, n | m in steps && n in steps && m != n :: steps[m].plan.session != steps[n].plan.session
  }

  ghost function SessionsOf(steps: Steps): set<string> {
    set n | n in steps :: steps[n].plan.session
  }

  lemma SessionOf(steps: Steps, n: string)
    requires n in steps
    ensures steps[n].plan.session in SessionsOf(steps)
  {}

  /** Every session started for the run belongs to one of its steps. */
  ghost predicate Owned(run: Run, sessions: Sessions) {
    forall s | s in sessions && sessions[s].workflowRun == run.header.name :: s in SessionsOf(run.steps)
  }

  /** Every step whose change another step applies runs in a session that keeps its files. */
  ghost predicate SourcesRetain(steps: Steps, defs: Snapshots) {
    forall n | n in steps && steps[n].plan.changeFrom in steps :: Retains(defs, steps[steps[n].plan.changeFrom])
  }

  /** What creation gives every run of a loaded workflow: nothing it will ever ask of a session is invalid. */
  ghost predicate Presentable(run: Run, defs: Snapshots) {
    && IsLabel(run.header.name, RUN_NAME_MAX) && !IsBlank(run.header.repository) && run.header.ref != ""
    && forall n | n in run.steps ::
         && IsLabel(n, TASK_ID_MAX) && IsLabel(run.steps[n].plan.session, SESSION_NAME_MAX)
         && run.steps[n].plan.agent in defs && ValidAgent(defs[run.steps[n].plan.agent])
  }

  /** Every recorded change is one that a session can apply. */
  ghost predicate ChangesValid(steps: Steps) {
    forall n | n in steps && steps[n].report.change.Some? :: ValidChange(steps[n].report.change.value)
  }

  /** The sessions of a run match its steps. */
  ghost predicate Accounted(run: Run, defs: Snapshots, server: Server, sessions: Sessions, tasks: Tasks) {
    && tasks.Keys == sessions.Keys
    && DistinctSessions(run.steps)
    && SourcesRetain(run.steps, defs)
    && Presentable(run, defs) && ChangesValid(run.steps)
    && Owned(run, sessions)
    && forall n | n in run.steps :: StepAccounted(run, defs, server, sessions, tasks, n)
  }

  // ---- What the sessions do ----

  /** A new session for the step leaves every other step accounted for. */
  lemma AccountedAfterStart(run: Run, defs: Snapshots, server: Server, s0: Sessions, t0: Tasks, s1: Sessions, t1: Tasks, n: string)
    requires Accounted(run, defs, server, s0, t0) && t1.Keys == s1.Keys
    requires n in run.steps && run.steps[n].state.Starting?
    requires var name := run.steps[n].plan.session;
             && OthersKept(name, s0, t0, s1, t1)
             && (name in s0 ==> s1 == s0 && t1 == t0)
             && (name in s1 && name !in s0 ==>
                   && Dispatched(run, defs, server, s1[name], t1[name], n)
                   && s1[name].deletion.None? && t1[name][0].state.TaskPending?)
    ensures Accounted(run, defs, server, s1, t1)
  {
    var name := run.steps[n].plan.session;
    forall s | s in s1 && s1[s].workflowRun == run.header.name ensures s in SessionsOf(run.steps) {
      if s != name { OtherKept(name, s0, t0, s1, t1, s); } else { assert run.steps[n].plan.session == s; }
    }
    forall m | m in run.steps ensures StepAccounted(run, defs, server, s1, t1, m) {
      assert StepAccounted(run, defs, server, s0, t0, m);
      if m != n { OtherKept(name, s0, t0, s1, t1, run.steps[m].plan.session); }
    }
  }

  lemma DispatchedMoves(run: Run, defs: Snapshots, server: Server, r0: Record, h0: seq<Task>, r1: Record, h1: seq<Task>, n: string)
    requires n in run.steps && Dispatched(run, defs, server, r0, h0, n)
    requires r1 == r0.(deletion := r1.deletion) && SameLength(h0, h1)
    ensures Dispatched(run, defs, server, r1, h1, n)
  {
    assert TaskMoves(h0[0], h1[0]);
  }

  /** Progress of any one session's tasks leaves every step accounted for. */
  lemma AccountedAfterProgress(run: Run, defs: Snapshots, server: Server, sessions: Sessions, t0: Tasks, t1: Tasks, name: string)
    requires Accounted(run, defs, server, sessions, t0) && t1.Keys == sessions.Keys
    requires OthersKept(name, sessions, t0, sessions, t1)
    requires name in sessions ==> SameLength(t0[name], t1[name]) && NoneCanceled(t0[name], t1[name])
    ensures Accounted(run, defs, server, sessions, t1)
  {
    forall m | m in run.steps ensures StepAccounted(run, defs, server, sessions, t1, m) {
      assert StepAccounted(run, defs, server, sessions, t0, m);
      var of := run.steps[m].plan.session;
      if of != name {
        OtherKept(name, sessions, t0, sessions, t1, of);
      } else if of in sessions {
        DispatchedMoves(run, defs, server, sessions[of], t0[of], sessions[of], t1[of], m);
        assert TaskMoves(t0[of][0], t1[of][0]);
      }
    }
  }

  /** A session may lose its compute unless its step is active and wanted, and everything once its run is being deleted. */
  ghost predicate Removable(run: Run, n: string, storage: bool)
    requires n in run.steps
  {
    if storage then run.state.RunDeleting? else run.steps[n].state.Active() ==> run.cancelRequested
  }

  lemma AccountedAfterRemoving(run: Run, defs: Snapshots, server: Server, s0: Sessions, t0: Tasks, s1: Sessions, t1: Tasks,
                               n: string, storage: bool)
    requires Accounted(run, defs, server, s0, t0) && n in run.steps && Removable(run, n, storage)
    requires Sound(run)
    requires Removing(run.steps[n].plan.session, storage, s0, t0, s1, t1)
    ensures Accounted(run, defs, server, s1, t1)
  {
    var name := run.steps[n].plan.session;
    forall s | s in s1 && s1[s].workflowRun == run.header.name ensures s in SessionsOf(run.steps) {
      if s != name { OtherKept(name, s0, t0, s1, t1, s); }
    }
    forall m | m in run.steps ensures StepAccounted(run, defs, server, s1, t1, m) {
      assert StepAccounted(run, defs, server, s0, t0, m);
      if m != n {
        OtherKept(name, s0, t0, s1, t1, run.steps[m].plan.session);
      } else {
        RemovedStep(run, defs, server, s0, t0, s1, t1, n, storage);
      }
    }
  }

  lemma RemovedStep(run: Run, defs: Snapshots, server: Server, s0: Sessions, t0: Tasks, s1: Sessions, t1: Tasks, n: string, storage: bool)
    requires n in run.steps && Removable(run, n, storage) && Sound(run)
    requires StepAccounted(run, defs, server, s0, t0, n)
    requires Removing(run.steps[n].plan.session, storage, s0, t0, s1, t1)
    ensures StepAccounted(run, defs, server, s1, t1, n)
  {
    var name := run.steps[n].plan.session;
    if name in s1 {
      DispatchedMoves(run, defs, server, s0[name], t0[name], s1[name], t1[name], n);
      assert TaskMoves(t0[name][0], t1[name][0]);
    }
  }

  /** Retrying a recorded deletion leaves every step of every run accounted for. */
  lemma AccountedAfterRetry(run: Run, defs: Snapshots, server: Server, a: RowsState, b: RowsState)
    requires Accounted(run, defs, server, a.sessions, a.tasks) && Sound(run) && Retry(a, b)
    ensures Accounted(run, defs, server, b.sessions, b.tasks)
  {
    var name, storage :| name in a.sessions && a.sessions[name].deletion == Some(storage)
      && Removing(name, storage, a.sessions, a.tasks, b.sessions, b.tasks);
    if n :| n in run.steps && run.steps[n].plan.session == name {
      assert StepAccounted(run, defs, server, a.sessions, a.tasks, n);
      AccountedAfterRemoving(run, defs, server, a.sessions, a.tasks, b.sessions, b.tasks, n, storage);
    } else {
      StrangerRemoved(run, defs, server, a, b, name, storage);
    }
  }

  lemma StrangerRemoved(run: Run, defs: Snapshots, server: Server, a: RowsState, b: RowsState, name: string, storage: bool)
    requires Accounted(run, defs, server, a.sessions, a.tasks)
    requires Removing(name, storage, a.sessions, a.tasks, b.sessions, b.tasks)
    requires forall n | n in run.steps :: run.steps[n].plan.session != name
    ensures Accounted(run, defs, server, b.sessions, b.tasks)
  {
    forall s | s in b.sessions && b.sessions[s].workflowRun == run.header.name ensures s in SessionsOf(run.steps) {
      if s != name { OtherKept(name, a.sessions, a.tasks, b.sessions, b.tasks, s); }
    }
    forall n | n in run.steps ensures StepAccounted(run, defs, server, b.sessions, b.tasks, n) {
      assert StepAccounted(run, defs, server, a.sessions, a.tasks, n);
      OtherKept(name, a.sessions, a.tasks, b.sessions, b.tasks, run.steps[n].plan.session);
    }
  }

  /** So does a whole pass over the recorded deletions, wherever it stops. */
  lemma {:induction false} RetriesKeepAccounts(run: Run, defs: Snapshots, server: Server, trail: seq<RowsState>, i: nat)
    requires Retries(trail) && i < |trail| && Sound(run)
    requires Accounted(run, defs, server, trail[0].sessions, trail[0].tasks)
    ensures Accounted(run, defs, server, trail[i].sessions, trail[i].tasks)
  {
    if i > 0 {
      RetriesKeepAccounts(run, defs, server, trail, i - 1);
      assert Retry(trail[i - 1], trail[i]);
      AccountedAfterRetry(run, defs, server, trail[i - 1], trail[i]);
    }
  }

  // ---- What the run does ----

  /** Neither the requests of the recorded steps nor what is said of them changes with a saved move. */
  ghost predicate StepFollows(a: Run, b: Run, sessions: Sessions, tasks: Tasks, n: string)
    requires n in a.steps && n in b.steps
  {
    var name := b.steps[n].plan.session;
    && (b.steps[n].state.Pending? || b.steps[n].state.Skipped? ==> a.steps[n].state.Pending? || a.steps[n].state.Skipped?)
    && (name in sessions && b.steps[n].state.Terminal() && a.steps[n].state.Active() ==>
          name in tasks && |tasks[name]| > 0 && Latest(tasks[name]).state.Terminal())
    && (b.steps[n].state.Running? && !b.cancelRequested ==> name in sessions)
    && (b.steps[n].state.Completed? && !a.steps[n].state.Completed? ==>
          name in sessions && a.steps[n].state.Active() && !a.cancelRequested)
    && (b.steps[n].report.change == a.steps[n].report.change
        || (b.steps[n].report.change.Some? && ValidChange(b.steps[n].report.change.value)))
  }

  ghost predicate Follows(a: Run, b: Run, sessions: Sessions, tasks: Tasks) {
    && b.header == a.header && Settled(a.steps, b.steps)
    && (a.cancelRequested ==> b.cancelRequested) && (a.state.RunDeleting? ==> b.state.RunDeleting?)
    && forall n | n in a.steps :: StepFollows(a, b, sessions, tasks, n)
  }

  lemma SameReports(header: Header, a: Steps, b: Steps, n: string)
    requires SameShape(a, b) && n in a && HandoffReady(a, a[n])
    requires forall d | d in a && (d in a[n].plan.after || d == a[n].plan.changeFrom) :: b[d].report == a[d].report
    ensures HandoffReady(b, b[n]) && Request(header, b, b[n]) == Request(header, a, a[n])
  {
    ShapeKeepsGraph(a, b);
    assert DependencyOutputs(b, b[n]) == DependencyOutputs(a, a[n]);
  }

  /** A recorded step's dependencies have all ended, so what it was asked for stays the same. */
  lemma RequestFollows(a: Run, b: Run, rank: Rank, n: string)
    requires Planned(a.header, a.steps, rank) && Sound(a) && Settled(a.steps, b.steps) && b.header == a.header
    requires n in a.steps && !a.steps[n].state.Pending? && !a.steps[n].state.Skipped? && HandoffReady(a.steps, a.steps[n])
    ensures HandoffReady(b.steps, b.steps[n]) && Request(b.header, b.steps, b.steps[n]) == Request(a.header, a.steps, a.steps[n])
  {
    var s := a.steps[n];
    forall d | d in a.steps && (d in s.plan.after || d == s.plan.changeFrom) ensures b.steps[d].report == a.steps[d].report {
      assert a.steps[d].state.Terminal() by {
        if !s.state.Canceled? { assert AllCompleted(a.steps, s); }
      }
    }
    SameReports(a.header, a.steps, b.steps, n);
  }

  /** A saved move that follows the sessions keeps every step accounted for. */
  lemma {:induction false} AccountedAfterMove(a: Run, b: Run, rank: Rank, defs: Snapshots, server: Server, sessions: Sessions, tasks: Tasks)
    requires Accounted(a, defs, server, sessions, tasks)
    requires Planned(a.header, a.steps, rank) && Sound(a)
    requires Follows(a, b, sessions, tasks)
    ensures Accounted(b, defs, server, sessions, tasks)
  {
    hide Planned, Sound, Dispatched, InStep, IsLabel, ValidAgent, IsBlank;
    assert SessionsOf(b.steps) == SessionsOf(a.steps) by {
      forall n | n in a.steps ensures b.steps[n].plan.session == a.steps[n].plan.session {}
    }
    forall n | n in b.steps && b.steps[n].report.change.Some? ensures ValidChange(b.steps[n].report.change.value) {
      assert StepFollows(a, b, sessions, tasks, n);
    }
    forall n | n in b.steps ensures StepAccounted(b, defs, server, sessions, tasks, n) {
      assert StepAccounted(a, defs, server, sessions, tasks, n) && StepFollows(a, b, sessions, tasks, n);
      StepAfterMove(a, b, rank, defs, server, sessions, tasks, n);
    }
  }

  lemma StepAfterMove(a: Run, b: Run, rank: Rank, defs: Snapshots, server: Server, sessions: Sessions, tasks: Tasks, n: string)
    requires n in a.steps && StepAccounted(a, defs, server, sessions, tasks, n)
    requires Planned(a.header, a.steps, rank) && Sound(a)
    requires Follows(a, b, sessions, tasks)
    ensures StepAccounted(b, defs, server, sessions, tasks, n)
  {
    hide Dispatched, Planned, Sound, ValidChange;
    assert StepFollows(a, b, sessions, tasks, n);
    var name := a.steps[n].plan.session;
    if name in sessions {
      DispatchedAfterMove(a, b, rank, defs, server, sessions[name], tasks[name], n);
    }
  }

  lemma DispatchedAfterMove(a: Run, b: Run, rank: Rank, defs: Snapshots, server: Server, record: Record, history: seq<Task>, n: string)
    requires n in a.steps && Dispatched(a, defs, server, record, history, n)
    requires !a.steps[n].state.Pending? && !a.steps[n].state.Skipped?
    requires Planned(a.header, a.steps, rank) && Sound(a) && Settled(a.steps, b.steps) && b.header == a.header
    ensures Dispatched(b, defs, server, record, history, n) && |history| == 1
  {
    hide Planned, Sound, Request, Normalized, InitialRecord;
    RequestFollows(a, b, rank, n);
  }

  // ---- One reconcile pass ----

  /** The steps after the starting ones among the names were dispatched. */
  function StartedIn(steps: Steps, names: seq<string>): Steps {
    map n | n in steps :: if n in names && steps[n].state.Starting? then steps[n].(state := Running) else steps[n]
  }

  lemma StartedInAll(steps: Steps, names: seq<string>)
    requires forall n | n in steps :: n in names
    ensures StartedIn(steps, names) == StartAll(steps)
  {}

  lemma StartedInNext(steps: Steps, names: seq<string>, n: string)
    requires n in steps && n !in names
    ensures StartedIn(steps, names).Keys == steps.Keys && StartedIn(steps, names)[n] == steps[n]
    ensures var next := StartedIn(steps, names + [n]);
            if steps[n].state.Starting? then next == StartedIn(steps, names)[n := steps[n].(state := Running)]
            else next == StartedIn(steps, names)
  {}

  /** Two values of a run that differ in no plan and no report ask for the same. */
  lemma DispatchedAlike(a: Run, b: Run, defs: Snapshots, server: Server, record: Record, history: seq<Task>, n: string)
    requires b.header == a.header && SameShape(a.steps, b.steps) && n in a.steps
    requires forall m | m in a.steps :: b.steps[m].report == a.steps[m].report
    ensures Dispatched(a, defs, server, record, history, n) <==> Dispatched(b, defs, server, record, history, n)
  {
    if HandoffReady(a.steps, a.steps[n]) { SameReports(a.header, a.steps, b.steps, n); }
    if HandoffReady(b.steps, b.steps[n]) { SameReports(a.header, b.steps, a.steps, n); }
  }

  /** What the session component answers about a task. */
  function ReplyFor(task: Task): SessionReply {
    match task.state
    case TaskPending | TaskRunning => Unfinished
    case TaskFailed | TaskCanceled => Stopped
    case TaskCompleted | TaskBlocked => Reported(task.artifacts)
  }

  /** Every reply but an unfinished one is what the session's finished latest task says. */
  ghost predicate Witnessed(steps: Steps, observed: map<string, Observation>, sessions: Sessions, tasks: Tasks) {
    forall n | n in observed && n in steps && !observed[n].reply.Unfinished? ::
      var name := steps[n].plan.session;
      && name in sessions && name in tasks && |tasks[name]| > 0
      && Latest(tasks[name]).state.Terminal() && observed[n].reply == ReplyFor(Latest(tasks[name]))
  }

  lemma WitnessedLater(steps: Steps, observed: map<string, Observation>, sessions: Sessions, t0: Tasks, t1: Tasks, name: string)
    requires Witnessed(steps, observed, sessions, t0) && t0.Keys == sessions.Keys == t1.Keys
    requires OthersKept(name, sessions, t0, sessions, t1)
    requires name in sessions ==> SameLength(t0[name], t1[name])
    ensures Witnessed(steps, observed, sessions, t1)
  {
    forall n | n in observed && n in steps && !observed[n].reply.Unfinished?
      ensures var of := steps[n].plan.session; |t1[of]| > 0 && Latest(t1[of]) == Latest(t0[of])
    {
      var of := steps[n].plan.session;
      if of != name {
        OtherKept(name, sessions, t0, sessions, t1, of);
      } else {
        assert TaskMoves(Latest(t0[of]), Latest(t1[of]));
      }
    }
  }

  /** Replies after which a step has not finished are what its session's unfinished task says. */
  ghost predicate StillUnfinished(steps: Steps, observed: map<string, Observation>, tasks: Tasks) {
    forall n | n in observed && n in steps && observed[n].reply.Unfinished? ::
      var name := steps[n].plan.session; name in tasks && |tasks[name]| > 0 && !Latest(tasks[name]).state.Terminal()
  }

  lemma StillUnfinishedLater(steps: Steps, observed: map<string, Observation>, sessions: Sessions, t0: Tasks, t1: Tasks, m: string)
    requires StillUnfinished(steps, observed, t0) && DistinctSessions(steps) && m in steps && m !in observed
    requires OthersKept(steps[m].plan.session, sessions, t0, sessions, t1)
    ensures StillUnfinished(steps, observed, t1)
  {
    forall n | n in observed && n in steps && observed[n].reply.Unfinished?
      ensures var name := steps[n].plan.session; name in t1 && |t1[name]| > 0 && !Latest(t1[name]).state.Terminal()
    {
      OtherKept(steps[m].plan.session, sessions, t0, sessions, t1, steps[n].plan.session);
    }
  }

  /** Whatever completes a step whose change another applies reports a change that can be applied. */
  ghost predicate ChangesReported(steps: Steps, observed: map<string, Observation>) {
    forall n | n in observed && n in steps && steps[n].state.Running? && ProducesChange(steps, n) ::
      var s := ObserveStep(steps[n], observed[n], true);
      s.state.Completed? ==> s.report.change.Some? && ValidChange(s.report.change.value)
  }

  /** What observing a step can make of its change. */
  lemma ObservedChange(step: Step, o: Observation, produces: bool)
    ensures var s := ObserveStep(step, o, produces);
            s.report.change == step.report.change || (produces && s.state.Completed?)
  {}

  lemma OnlyReportsComplete(step: Step, o: Observation)
    requires step.state.Running? && !o.reply.Reported?
    ensures !ObserveStep(step, o, true).state.Completed?
  {}

  /** The tasks of accounted sessions report valid changes: a completed task of that kind carries one. */
  lemma WitnessedChanges(run: Run, rank: Rank, defs: Snapshots, server: Server, sessions: Sessions, tasks: Tasks,
                         observed: map<string, Observation>)
    requires Accounted(run, defs, server, sessions, tasks) && GoodRows(sessions, tasks) && Planned(run.header, run.steps, rank)
    requires Witnessed(StartAll(run.steps), observed, sessions, tasks)
    ensures ChangesReported(StartAll(run.steps), observed)
  {
    hide Accounted, Planned, ObserveStep, ReplyFor, Request, ResultKindOf, HandoffReady, ChangeInputOf, StepPrompt, GoodTask, GoodRows;
    var started := StartAll(run.steps);
    ShapeKeepsGraph(run.steps, started);
    forall n | n in observed && n in started && started[n].state.Running? && ProducesChange(started, n)
      ensures var s := ObserveStep(started[n], observed[n], true);
              s.state.Completed? ==> s.report.change.Some? && ValidChange(s.report.change.value)
    {
      if !observed[n].reply.Reported? {
        OnlyReportsComplete(started[n], observed[n]);
      } else {
        assert run.steps[n].plan == started[n].plan && run.steps[n].plan.session in sessions;
        OneInitialTask(run, defs, server, sessions, tasks, n);
        TasksAreGood(run.steps[n].plan.session, sessions, tasks);
        ReportedChange(run, rank, tasks[run.steps[n].plan.session][0], started[n], observed[n], n);
      }
    }
  }

  lemma TasksAreGood(s: string, sessions: Sessions, tasks: Tasks)
    requires GoodRows(sessions, tasks) && s in sessions
    ensures s in tasks && |tasks[s]| > 0 && forall i | 0 <= i < |tasks[s]| :: GoodTask(tasks[s][i])
  {}

  lemma ReportedChange(run: Run, rank: Rank, task: Task, step: Step, o: Observation, n: string)
    requires Planned(run.header, run.steps, rank) && n in run.steps && step.plan == run.steps[n].plan && ProducesChange(run.steps, n)
    requires GoodTask(task) && task.resultKind == ResultKindOf(run.steps, run.steps[n])
    requires task.state.Terminal() && o.reply == ReplyFor(task) && o.reply.Reported?
    ensures var s := ObserveStep(step, o, true);
            s.state.Completed? ==> s.report.change.Some? && ValidChange(s.report.change.value)
  {
    ReportedVerdict(step, o.reply.artifacts, o.at, true);
    ReportedResult(step, o.reply.artifacts, o.at, true);
  }

  /** A reconcile pass over recorded sessions follows them. */
  lemma ReconcileFollows(run: Run, observed: map<string, Observation>, at: int, saved: int, sessions: Sessions, tasks: Tasks)
    requires Sound(run) && !run.cancelRequested && !run.state.Ended()
    requires forall n | n in run.steps && run.steps[n].state.Active() :: run.steps[n].plan.session in sessions
    requires Witnessed(StartAll(run.steps), observed, sessions, tasks) && ChangesReported(StartAll(run.steps), observed)
    ensures Follows(run, Apply(run, Reconcile(observed, at, saved)), sessions, tasks)
  {
    var next := Apply(run, Reconcile(observed, at, saved));
    assert next.steps == ReconcileSteps(run, observed, at);
    ReconcileKeeps(run, observed, at);
    hide Apply, ReconcileSteps, StepFollows, Sound;
    forall n | n in run.steps ensures StepFollows(run, next, sessions, tasks, n) {
      ReconciledStep(run, observed, at, n);
      StepReconciled(run, observed, next, sessions, tasks, n);
    }
  }

  ghost predicate Reconciled(a: Step, b: Step, finished: bool) {
    && b.plan == a.plan
    && (a.state.Terminal() ==> b.state == a.state)
    && (a.state.Active() ==> b.state.Running? || (finished && (b.state.Completed? || b.state.Blocked? || b.state.Failed?)))
    && (a.state.Pending? ==> b.state.Pending? || b.state.Starting? || b.state.Skipped?)
    && (b.report.change == a.report.change || (b.report.change.Some? && ValidChange(b.report.change.value)))
  }

  predicate Finished(observed: map<string, Observation>, n: string) {
    n in observed && !observed[n].reply.Unfinished?
  }

  lemma StepReconciled(run: Run, observed: map<string, Observation>, next: Run, sessions: Sessions, tasks: Tasks, n: string)
    requires n in run.steps && n in next.steps && Reconciled(run.steps[n], next.steps[n], Finished(observed, n)) && !run.cancelRequested
    requires run.steps[n].state.Active() ==> run.steps[n].plan.session in sessions
    requires Witnessed(StartAll(run.steps), observed, sessions, tasks)
    ensures StepFollows(run, next, sessions, tasks, n)
  {
    if Finished(observed, n) {
      assert n in StartAll(run.steps) && StartAll(run.steps)[n].plan == run.steps[n].plan;
    }
  }

  /** What a reconcile pass can make of one step. */
  lemma ReconciledStep(run: Run, observed: map<string, Observation>, at: int, n: string)
    requires Sound(run) && n in run.steps && ChangesReported(StartAll(run.steps), observed)
    ensures var b := ReconcileSteps(run, observed, at); n in b && Reconciled(run.steps[n], b[n], Finished(observed, n))
  {
    var s1 := StartAll(run.steps);
    var s2 := ObserveAll(s1, observed);
    ScheduleIsGreedy(s2, run.header.maxParallelism, at);
    ScheduledOne(s2, Sorted(s2.Keys), run.header.maxParallelism, at, ReconcileSteps(run, observed, at), n);
    if s1[n].state.Running? && n in observed {
      ObserveOne(s1[n], observed[n], ProducesChange(s1, n));
      ObservedChange(s1[n], observed[n], ProducesChange(s1, n));
    }
    assert s2[n].report.change == run.steps[n].report.change || (s2[n].report.change.Some? && ValidChange(s2[n].report.change.value));
  }

  // ---- What is left when a run has ended ----

  /** When a run has ended, no session started for it has an unfinished task. */
  lemma NoWorkOutlives(run: Run, defs: Snapshots, server: Server, sessions: Sessions, tasks: Tasks, s: string)
    requires Accounted(run, defs, server, sessions, tasks) && Sound(run) && run.state.Ended()
    requires s in sessions && sessions[s].workflowRun == run.header.name
    ensures forall i | 0 <= i < |tasks[s]| :: tasks[s][i].state.Terminal()
  {
    hide Request, Normalized, InitialRecord, InitialTask, HandoffReady, Sequenced, Recorded;
    assert s in SessionsOf(run.steps);
    var n :| n in run.steps && run.steps[n].plan.session == s;
    assert StepAccounted(run, defs, server, sessions, tasks, n);
  }

  /** However often it was dispatched, a step's session has exactly the one task that its request asks for. */
  lemma OneInitialTask(run: Run, defs: Snapshots, server: Server, sessions: Sessions, tasks: Tasks, n: string)
    requires Accounted(run, defs, server, sessions, tasks) && n in run.steps && run.steps[n].plan.session in sessions
    ensures var name := run.steps[n].plan.session;
            && |tasks[name]| == 1 && tasks[name][0].id == name
            && HandoffReady(run.steps, run.steps[n])
            && tasks[name][0].prompt == StepPrompt(run.header, run.steps, run.steps[n])
            && tasks[name][0].resultKind == ResultKindOf(run.steps, run.steps[n])
            && tasks[name][0].changeInput == ChangeInputOf(run.steps, run.steps[n])
            && sessions[name].workflowRun == run.header.name && sessions[name].workflowStep == run.steps[n].plan.name
  {
    assert StepAccounted(run, defs, server, sessions, tasks, n);
  }

  /**
   * The session a change is taken from keeps its files: it stays recorded, nobody has asked for its storage to go, and
   * the claim that holds the files is there.
   */
  lemma SourceKept(run: Run, rank: Rank, defs: Snapshots, server: Server, sessions: Sessions, tasks: Tasks,
                   jobs: map<string, set<string>>, claims: set<string>, n: string)
    requires Accounted(run, defs, server, sessions, tasks) && Planned(run.header, run.steps, rank) && Sound(run)
    requires Claimed(sessions, tasks, jobs, claims)
    requires n in run.steps && run.steps[n].state.Begun() && run.steps[n].plan.changeFrom != "" && !run.state.RunDeleting?
    ensures var source := run.steps[run.steps[n].plan.changeFrom].plan.session;
            && source in sessions && sessions[source].deletion != Some(true)
            && sessions[source].definition.storage.Persistent? && source in claims
  {
    hide Claimed, Presentable, Owned, DistinctSessions, ChangesValid, StepPrompt, Normalized, ResultKindOf, Recorded, Ranks;
    var from := run.steps[n].plan.changeFrom;
    assert AllCompleted(run.steps, run.steps[n]);
    assert StepAccounted(run, defs, server, sessions, tasks, from);
    ClaimIsThere(run.steps[from].plan.session, sessions, tasks, jobs, claims);
  }

  lemma PlannedSource(header: Header, steps: Steps, rank: Rank, n: string)
    requires Planned(header, steps, rank) && n in steps && steps[n].plan.changeFrom != ""
    ensures steps[n].plan.changeFrom in steps
  {}

  lemma ClaimIsThere(s: string, sessions: Sessions, tasks: Tasks, jobs: map<string, set<string>>, claims: set<string>)
    requires Claimed(sessions, tasks, jobs, claims) && s in sessions && s in tasks && |tasks[s]| > 0
    requires NeedsClaim(sessions[s], tasks[s][0], JobsOf(jobs, s))
    ensures s in claims
  {}

  /**
   * Nothing but the named sessions changed: those that were there keep what they were started for and only moved
   * forward, and new ones belong to their owner.
   */
  ghost predicate Within(names: set<string>, owner: string, a: RowsState, b: RowsState) {
    && b.sessions - names == a.sessions - names && b.tasks - names == a.tasks - names
    && forall s | s in names && s in b.sessions :: OneWithin(owner, a, b, s)
  }

  ghost predicate OneWithin(owner: string, a: RowsState, b: RowsState, s: string)
    requires s in b.sessions
  {
    if s in a.sessions then
      && b.sessions[s] == a.sessions[s].(deletion := b.sessions[s].deletion)
      && s in a.tasks && s in b.tasks && HistoryGrows(a.tasks[s], b.tasks[s])
    else b.sessions[s].workflowRun == owner
  }

  lemma WithinReflexive(names: set<string>, owner: string, a: RowsState)
    requires a.tasks.Keys == a.sessions.Keys
    ensures Within(names, owner, a, a)
  {}

  /** Either no session appeared after b that was gone by then, or none appeared at all. */
  lemma WithinTransitive(names: set<string>, owner: string, a: RowsState, b: RowsState, c: RowsState)
    requires Within(names, owner, a, b) && Within(names, owner, b, c)
    requires a.sessions.Keys <= b.sessions.Keys || c.sessions.Keys <= b.sessions.Keys
    ensures Within(names, owner, a, c)
  {
    forall s | s in names && s in c.sessions ensures OneWithin(owner, a, c, s) {
      assert OneWithin(owner, b, c, s);
      if s in b.sessions { assert OneWithin(owner, a, b, s); }
      if s in a.sessions {
        assert s in b.sessions.Keys;
        HistoryGrowsTransitive(a.tasks[s], b.tasks[s], c.tasks[s]);
      }
    }
  }

  /** One named session's own change is such a change. */
  lemma OneIsWithin(names: set<string>, owner: string, a: RowsState, b: RowsState, name: string)
    requires a.tasks.Keys == a.sessions.Keys && b.tasks.Keys == b.sessions.Keys && name in names
    requires OthersKept(name, a.sessions, a.tasks, b.sessions, b.tasks)
    requires name in b.sessions ==> OneWithin(owner, a, b, name)
    ensures Within(names, owner, a, b)
  {
    assert b.sessions - names == (b.sessions - {name}) - names && a.sessions - names == (a.sessions - {name}) - names;
    assert b.tasks - names == (b.tasks - {name}) - names && a.tasks - names == (a.tasks - {name}) - names;
    forall s | s in names && s in b.sessions ensures OneWithin(owner, a, b, s) {
      if s != name { OtherKept(name, a.sessions, a.tasks, b.sessions, b.tasks, s); }
    }
  }

  lemma OutsideKept(names: set<string>, owner: string, a: RowsState, b: RowsState, s: string)
    requires Within(names, owner, a, b) && s !in names
    ensures (s in a.sessions <==> s in b.sessions) && (s in a.tasks <==> s in b.tasks)
    ensures (s in a.sessions ==> b.sessions[s] == a.sessions[s]) && (s in a.tasks ==> b.tasks[s] == a.tasks[s])
  {
    assert s in b.sessions <==> s in b.sessions - names;
    assert s in a.sessions <==> s in a.sessions - names;
    assert s in b.tasks <==> s in b.tasks - names;
    assert s in a.tasks <==> s in a.tasks - names;
    assert s in a.sessions ==> a.sessions[s] == (a.sessions - names)[s] == (b.sessions - names)[s] == b.sessions[s];
    assert s in a.tasks ==> a.tasks[s] == (a.tasks - names)[s] == (b.tasks - names)[s] == b.tasks[s];
  }

  /** A session name determines its run. */
  lemma SessionNamesRun(a: Run, m: string, b: Run, n: string)
    requires NamedFor(a) && NamedFor(b) && m in a.steps && n in b.steps
    requires a.steps[m].plan.session == b.steps[n].plan.session
    ensures a.header.name == b.header.name
  {
    var s := a.steps[m].plan.session;
    assert a.header.name == s[..|s| - 1 - DIGEST_LENGTH] == b.header.name;
  }

  /** Runs of different names share no session. */
  lemma RunsShareNoSession(a: Run, b: Run)
    requires NamedFor(a) && NamedFor(b) && a.header.name != b.header.name
    ensures SessionsOf(a.steps) !! SessionsOf(b.steps)
  {
    forall m, n | m in a.steps && n in b.steps ensures a.steps[m].plan.session != b.steps[n].plan.session {
      if a.steps[m].plan.session == b.steps[n].plan.session { SessionNamesRun(a, m, b, n); }
    }
  }

  /** Whatever changes no session of a run and starts none for it leaves the run accounted for. */
  lemma OtherRunsAccounted(names: set<string>, owner: string, run: Run, defs: Snapshots, server: Server, a: RowsState, b: RowsState)
    requires names !! SessionsOf(run.steps) && owner != run.header.name
    requires Accounted(run, defs, server, a.sessions, a.tasks) && b.tasks.Keys == b.sessions.Keys
    requires Within(names, owner, a, b)
    ensures Accounted(run, defs, server, b.sessions, b.tasks)
  {
    forall s | s in names && s in b.sessions ensures b.sessions[s].workflowRun != run.header.name {
      assert OneWithin(owner, a, b, s);
    }
    forall s | s in b.sessions && b.sessions[s].workflowRun == run.header.name ensures s in SessionsOf(run.steps) {
      OutsideKept(names, owner, a, b, s);
    }
    forall n | n in run.steps ensures StepAccounted(run, defs, server, b.sessions, b.tasks, n) {
      assert StepAccounted(run, defs, server, a.sessions, a.tasks, n);
      SessionOf(run.steps, n);
      OutsideKept(names, owner, a, b, run.steps[n].plan.session);
    }
  }
}
