/** What cleaning up, canceling, and destroying a run's sessions keeps, and what is left of them afterwards. */
module RunEnding {
  import opened Prelude
  import opened Graphs
  import opened SessionTypes
  import opened SessionTasks
  import opened SessionStore
  import opened SessionControl
  import opened WorkflowRun
  import opened RunMoves
  import opened RunHistory
  import opened WorkflowStore
  import opened Accounting

  type JobTable = map<string, set<string>>

  /** A session that is gone or has nothing unfinished. */
  ghost predicate NothingUnfinished(name: string, sessions: Sessions, tasks: Tasks) {
    name in sessions ==> name in tasks && |tasks[name]| > 0 && Latest(tasks[name]).state.Terminal()
  }

  /** Removing a session touches that session only, and adds none. */
  lemma RemovedWithin(names: set<string>, owner: string, name: string, storage: bool, a: RowsState, b: RowsState)
    requires Removing(name, storage, a.sessions, a.tasks, b.sessions, b.tasks) && name in names
    ensures Within(names, owner, a, b) && b.sessions.Keys <= a.sessions.Keys
  {
    forall s | s in b.sessions ensures s in a.sessions {
      if s != name { OtherKept(name, a.sessions, a.tasks, b.sessions, b.tasks, s); }
    }
    OneIsWithin(names, owner, a, b, name);
  }

  lemma OtherJobs(name: string, before: JobTable, after: JobTable, s: string)
    requires JobsRemoved(name, before, after) && JobsOf(before, s) == {}
    ensures JobsOf(after, s) == {}
  {
    if s != name { Elsewhere(after, before, name, s); }
  }

  lemma StillWithoutJobs(names: seq<string>, i: nat, before: JobTable, after: JobTable)
    requires i < |names| && JobsRemoved(names[i], before, after)
    ensures forall k | 0 <= k < i && JobsOf(before, names[k]) == {} :: JobsOf(after, names[k]) == {}
  {
    forall k | 0 <= k < i && JobsOf(before, names[k]) == {} ensures JobsOf(after, names[k]) == {} {
      OtherJobs(names[i], before, after, names[k]);
    }
  }

  // ---- Cleaning up after completed steps ----

  /** The steps after cleaning all but the unread ones. */
  function CleanedIn(steps: Steps, unread: set<string>): Steps {
    map n | n in steps :: if n in unread then steps[n] else CleanStep(steps[n])
  }

  /** The completed steps outside the unread ones that were to be cleaned up have no Jobs. */
  ghost predicate CleanedJobs(steps: Steps, unread: set<string>, jobs: JobTable) {
    forall n | n in steps && n !in unread && steps[n].state.Completed? && !steps[n].plan.publishable && !steps[n].cleaned ::
      JobsOf(jobs, steps[n].plan.session) == {}
  }

  lemma NothingCleaned(steps: Steps, jobs: JobTable)
    ensures CleanedIn(steps, steps.Keys) == steps && CleanedJobs(steps, steps.Keys, jobs)
  {}

  lemma CleanedInNext(steps: Steps, unread: set<string>, n: string)
    requires n in unread && n in steps
    ensures CleanedIn(steps, unread).Keys == steps.Keys && CleanedIn(steps, unread)[n] == steps[n]
    ensures var next := CleanedIn(steps, unread - {n});
            if NeedsCleanup(steps[n]) then next == CleanedIn(steps, unread)[n := steps[n].(cleaned := true)]
            else next == CleanedIn(steps, unread)
  {}

  lemma JobsCleanedWithout(steps: Steps, unread: set<string>, n: string, jobs: JobTable)
    requires CleanedJobs(steps, unread, jobs) && n in steps && !NeedsCleanup(steps[n])
    ensures CleanedJobs(steps, unread - {n}, jobs)
  {}

  lemma JobsCleanedNext(steps: Steps, unread: set<string>, n: string, before: JobTable, after: JobTable)
    requires CleanedJobs(steps, unread, before) && n in steps
    requires JobsRemoved(steps[n].plan.session, before, after) && JobsOf(after, steps[n].plan.session) == {}
    ensures CleanedJobs(steps, unread - {n}, after)
  {
    forall m | m in steps && m !in unread - {n} && NeedsCleanup(steps[m]) ensures JobsOf(after, steps[m].plan.session) == {} {
      if m != n { OtherJobs(steps[n].plan.session, before, after, steps[m].plan.session); }
    }
  }

  lemma CleanedInAll(run: Run, at: int)
    ensures run.(steps := CleanedIn(run.steps, {}), updatedAt := at) == Apply(run, Clean(at))
    ensures Enabled(run, Clean(0)) ==> Enabled(run, Clean(at))
  {}

  lemma CleanedStepFollows(run: Run, next: Run, defs: Snapshots, server: Server, sessions: Sessions, tasks: Tasks, n: string)
    requires n in run.steps && n in next.steps && next.steps[n] == CleanStep(run.steps[n])
    requires next.cancelRequested == run.cancelRequested
    requires StepAccounted(run, defs, server, sessions, tasks, n)
    ensures StepFollows(run, next, sessions, tasks, n)
  {
    hide Dispatched;
  }

  lemma CleanAccounted(run: Run, at: int, rank: Rank, defs: Snapshots, server: Server, rows: RowsState)
    requires Accounted(run, defs, server, rows.sessions, rows.tasks) && Planned(run.header, run.steps, rank) && Sound(run)
    ensures Accounted(Apply(run, Clean(at)), defs, server, rows.sessions, rows.tasks)
  {
    hide Sound, Planned, StepAccounted, StepFollows, DistinctSessions, Owned, Presentable, SourcesRetain, ChangesValid;
    var next := Apply(run, Clean(at));
    CleanKeeps(run, at);
    forall n | n in run.steps ensures StepFollows(run, next, rows.sessions, rows.tasks, n) {
      CleanedStepFollows(run, next, defs, server, rows.sessions, rows.tasks, n);
    }
    AccountedAfterMove(run, next, rank, defs, server, rows.sessions, rows.tasks);
  }

  // ---- Ending a canceled run ----

  /** The steps after canceling all but the unread ones. */
  function CanceledIn(steps: Steps, unread: set<string>, at: int): Steps {
    map n | n in steps :: if n in unread then steps[n] else CancelStep(steps[n], at)
  }

  /** The active steps outside the unread ones have nothing unfinished and no Jobs. */
  ghost predicate Quiet(steps: Steps, unread: set<string>, rows: RowsState, jobs: JobTable) {
    forall n | n in steps && n !in unread && steps[n].state.Active() ::
      NothingUnfinished(steps[n].plan.session, rows.sessions, rows.tasks) && JobsOf(jobs, steps[n].plan.session) == {}
  }

  lemma NothingCanceled(steps: Steps, at: int, rows: RowsState, jobs: JobTable)
    ensures CanceledIn(steps, steps.Keys, at) == steps && Quiet(steps, steps.Keys, rows, jobs)
  {}

  lemma CanceledInNext(steps: Steps, unread: set<string>, n: string, at: int)
    requires n in unread && n in steps
    ensures CanceledIn(steps, unread, at).Keys == steps.Keys && CanceledIn(steps, unread, at)[n] == steps[n]
    ensures var next := CanceledIn(steps, unread - {n}, at);
            if steps[n].state.Terminal() then next == CanceledIn(steps, unread, at)
            else next == CanceledIn(steps, unread, at)[n := steps[n].(state := Canceled, finishedAt := Some(at))]
  {}

  lemma QuietWithout(steps: Steps, unread: set<string>, n: string, rows: RowsState, jobs: JobTable)
    requires Quiet(steps, unread, rows, jobs) && n in steps && !steps[n].state.Active()
    ensures Quiet(steps, unread - {n}, rows, jobs)
  {}

  lemma QuietAfterRemoving(steps: Steps, unread: set<string>, n: string, a: RowsState, j0: JobTable, b: RowsState, j1: JobTable)
    requires Quiet(steps, unread, a, j0) && n in steps
    requires Removing(steps[n].plan.session, false, a.sessions, a.tasks, b.sessions, b.tasks)
    requires NothingUnfinished(steps[n].plan.session, b.sessions, b.tasks)
    requires JobsRemoved(steps[n].plan.session, j0, j1) && JobsOf(j1, steps[n].plan.session) == {}
    ensures Quiet(steps, unread - {n}, b, j1)
  {
    forall m | m in steps && m !in unread - {n} && steps[m].state.Active()
      ensures NothingUnfinished(steps[m].plan.session, b.sessions, b.tasks) && JobsOf(j1, steps[m].plan.session) == {}
    {
      if steps[m].plan.session != steps[n].plan.session {
        OtherKept(steps[n].plan.session, a.sessions, a.tasks, b.sessions, b.tasks, steps[m].plan.session);
        OtherJobs(steps[n].plan.session, j0, j1, steps[m].plan.session);
      }
    }
  }

  lemma CanceledInAll(run: Run, at: int)
    requires run.cancelRequested && !run.state.Ended()
    ensures Enabled(run, CancelAll(at))
    ensures Apply(run, CancelAll(at)) == run.(steps := CanceledIn(run.steps, {}, at), state := RunCanceled, updatedAt := at)
  {}

  lemma CanceledStepFollows(run: Run, next: Run, at: int, sessions: Sessions, tasks: Tasks, n: string)
    requires n in run.steps && n in next.steps && next.steps[n] == CancelStep(run.steps[n], at)
    requires next.cancelRequested && (run.steps[n].state.Active() ==> NothingUnfinished(run.steps[n].plan.session, sessions, tasks))
    ensures StepFollows(run, next, sessions, tasks, n)
  {}

  lemma CancelAccounted(run: Run, at: int, rank: Rank, defs: Snapshots, server: Server, rows: RowsState, jobs: JobTable)
    requires Accounted(run, defs, server, rows.sessions, rows.tasks) && Planned(run.header, run.steps, rank) && Sound(run)
    requires run.cancelRequested && !run.state.Ended() && Quiet(run.steps, {}, rows, jobs)
    ensures Accounted(Apply(run, CancelAll(at)), defs, server, rows.sessions, rows.tasks)
  {
    hide Sound, Planned, Accounted, StepFollows, NothingUnfinished;
    var next := Apply(run, CancelAll(at));
    CancelKeeps(run, at);
    forall n | n in run.steps ensures StepFollows(run, next, rows.sessions, rows.tasks, n) {
      CanceledStepFollows(run, next, at, rows.sessions, rows.tasks, n);
    }
    AccountedAfterMove(run, next, rank, defs, server, rows.sessions, rows.tasks);
  }

  // ---- Moves that leave every step as it is ----

  predicate Flags(run: Run, m: Move) {
    Enabled(run, m) && (m.RequestCancel? || m.BeginDelete?)
  }

  lemma FlagAccounted(run: Run, m: Move, rank: Rank, defs: Snapshots, server: Server, rows: RowsState)
    requires Flags(run, m) && Planned(run.header, run.steps, rank) && Sound(run)
    requires Accounted(run, defs, server, rows.sessions, rows.tasks)
    ensures Accounted(Apply(run, m), defs, server, rows.sessions, rows.tasks)
  {
    hide StepAccounted, StepFollows, DistinctSessions, Owned, SourcesRetain, Presentable, ChangesValid;
    var next := Apply(run, m);
    MoveKeeps(run, m, rank);
    forall n | n in run.steps ensures StepFollows(run, next, rows.sessions, rows.tasks, n) {
      FlaggedStepFollows(run, next, defs, server, rows.sessions, rows.tasks, n);
    }
    AccountedAfterMove(run, next, rank, defs, server, rows.sessions, rows.tasks);
  }

  lemma FlaggedStepFollows(run: Run, next: Run, defs: Snapshots, server: Server, sessions: Sessions, tasks: Tasks, n: string)
    requires n in run.steps && n in next.steps && next.steps[n] == run.steps[n]
    requires run.cancelRequested ==> next.cancelRequested
    requires StepAccounted(run, defs, server, sessions, tasks, n)
    ensures StepFollows(run, next, sessions, tasks, n)
  {
    hide Dispatched;
  }

  // ---- Destroying a run ----

  lemma AllGone(steps: Steps, sessions: Sessions)
    requires forall n | n in steps :: steps[n].plan.session !in sessions
    ensures SessionsOf(steps) !! sessions.Keys
  {}

  lemma NothingLeft(names: set<string>, sessions: Sessions, tasks: Tasks, jobs: JobTable, claims: set<string>)
    requires names !! sessions.Keys && Backed(sessions, tasks, jobs, claims)
    ensures forall s | s in names :: s !in sessions && JobsOf(jobs, s) == {} && s !in claims
  {
    forall s | s in names ensures s !in sessions && JobsOf(jobs, s) == {} && s !in claims {
      assert s !in sessions.Keys;
      NothingUnrecorded(sessions, tasks, jobs, claims, s);
    }
  }

  lemma NoneOwned(run: Run, defs: Snapshots, server: Server, sessions: Sessions, tasks: Tasks)
    requires Accounted(run, defs, server, sessions, tasks) && SessionsOf(run.steps) !! sessions.Keys
    ensures forall s | s in sessions :: sessions[s].workflowRun != run.header.name
  {
    hide StepAccounted, DistinctSessions, Presentable, SourcesRetain, ChangesValid;
    forall s | s in sessions ensures sessions[s].workflowRun != run.header.name {
      assert s in sessions.Keys;
    }
  }
}
