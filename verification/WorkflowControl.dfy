/** Creates, reconciles, cancels, and deletes durable runs. Each operation holds the controller's mutex. */
module WorkflowControl {
  import Catalog
  import opened Prelude
  import opened Names
  import opened Graphs
  import opened SessionTypes
  import opened SessionTasks
  import opened SessionStore
  import SessionSteps
  import opened SessionControl
  import opened WorkflowRun
  import opened Scheduling
  import opened RunMoves
  import opened RunHistory
  import opened OptimisticRows
  import opened WorkflowStore
  import opened WorkingRuns
  import opened Accounting
  import opened DnsNames
  import opened RunCreation
  import opened RunDispatch
  import opened RunObservation
  import opened RunEnding
  import opened RunSaving
  import opened StepSessions

  datatype RunFailure =
    | BadRequest | UnknownRun | NotAllowed | Failing | LostRace | ChangeMissing | SessionTaken | RequestRefused

  class Control {
    const runs: WorkflowRepository
    const sessions: SessionControl.Control
    /** The workflows that were configured when the server started. */
    const catalog: Workflows
    /** The digest that identifies what a run was created to do. */
    const digest: RunDigest
    /** The eight hexadecimal characters that stand for a step in its session's name. */
    const stepDigest: StepDigest

    ghost predicate Valid()
      reads this, runs, sessions, sessions.rows, sessions.runtime
    {
      runs.Valid() && sessions.Valid() && Hexadecimal(stepDigest)
    }

    ghost function Here(): Server {
      Server(sessions.runtime.scope, sessions.image)
    }

    ghost function Now(): RowsState
      reads sessions.rows
    {
      RowsState(sessions.rows.sessions, sessions.rows.tasks)
    }

    /** The immutable agent definitions of a run. */
    ghost function DefsOf(name: string): Snapshots
      reads runs
    {
      if name in runs.snapshots then runs.snapshots[name] else map[]
    }

    /** The sessions account for this value of a run. */
    ghost predicate Accounts(run: Run)
      reads runs, sessions.rows
    {
      Accounted(run, DefsOf(run.header.name), Here(), sessions.rows.sessions, sessions.rows.tasks)
    }

    /** Since then nothing but the named sessions changed, and new ones among them belong to their owner. */
    twostate predicate Touches(names: set<string>, owner: string)
      reads sessions.rows
    {
      Within(names, owner, old(Now()), Now())
    }

    /** No session was taken away since then. */
    twostate predicate Adds()
      reads sessions.rows
    {
      old(sessions.rows.sessions).Keys <= sessions.rows.sessions.Keys
    }

    /** No session was added since then. */
    twostate predicate Drops()
      reads sessions.rows
    {
      sessions.rows.sessions.Keys <= old(sessions.rows.sessions).Keys
    }

    constructor (runs: WorkflowRepository, sessions: SessionControl.Control, catalog: Workflows, digest: RunDigest, stepDigest: StepDigest)
      requires runs.Valid() && sessions.Valid() && Hexadecimal(stepDigest)
      ensures Valid() && this.runs == runs && this.sessions == sessions && this.catalog == catalog
    {
      this.runs, this.sessions, this.catalog, this.digest, this.stepDigest := runs, sessions, catalog, digest, stepDigest;
    }

    /** What the step's session is asked to do. */
    method RequestFor(run: Run, n: string) returns (r: Option<StartRequest>)
      requires n in run.steps
      ensures r.Some? <==> HandoffReady(run.steps, run.steps[n])
      ensures r.Some? ==> r.value == Request(run.header, run.steps, run.steps[n]) && AsksForStep(run, n, r.value)
    {
      hide StepPrompt, Prompts;
      var step := run.steps[n];
      var kind := WorkflowOutput;
      if step.plan.publishable {
        kind := PullRequest;
      } else if ProducesChange(run.steps, step.plan.name) {
        kind := WorkflowChange;
      }

      var input: Option<ChangeInput> := None;
      if step.plan.changeFrom != "" {
        if step.plan.changeFrom !in run.steps { return None; }
        var source := run.steps[step.plan.changeFrom];
        if source.report.change.None? { return None; }
        input := Some(ChangeInput(source.plan.session, source.report.change.value));
      }
      PromptExactly(run.header, run.steps, step);
      r := Some(StartRequest(step.plan.session, run.header.repository, run.header.ref, StepPrompt(run.header, run.steps, step), 0,
                             kind, run.header.name, step.plan.name, input));
    }

    /** The step's recorded session is the one its dispatch asks for. */
    ghost predicate IsDispatched(run: Run, n: string)
      requires n in run.steps
      reads runs, sessions.rows
    {
      var name := run.steps[n].plan.session;
      && name in sessions.rows.sessions && name in sessions.rows.tasks
      && Dispatched(run, DefsOf(run.header.name), Here(), sessions.rows.sessions[name], sessions.rows.tasks[name], n)
    }

    /** The step's request is one that no session can be started with. */
    ghost predicate Unstartable(run: Run, n: string)
      requires n in run.steps
      reads runs
    {
      var agent, defs := run.steps[n].plan.agent, DefsOf(run.header.name);
      && HandoffReady(run.steps, run.steps[n]) && agent in defs
      && !ValidStart(defs[agent], Normalized(defs[agent], Request(run.header, run.steps, run.steps[n])))
    }

    /** Asks the session component for exactly the step's request; an existing session is left as it is. */
    method StartStep(run: Run, n: string) returns (err: Option<RunFailure>)
      requires Valid() && n in run.steps
      modifies sessions.rows, sessions.runtime
      ensures Valid()
      ensures StartedOne(run, DefsOf(run.header.name), Here(), old(Now()), Now(), n)
      ensures err == None ==> run.steps[n].plan.session in sessions.rows.sessions
      ensures err.Some? ==> err.value in {Failing, ChangeMissing, SessionTaken, RequestRefused}
      ensures err == Some(ChangeMissing) ==> !HandoffReady(run.steps, run.steps[n])
      ensures err == Some(SessionTaken) ==> run.steps[n].plan.session in old(sessions.rows.sessions) && !IsDispatched(run, n)
      ensures err == Some(RequestRefused) ==> Unstartable(run, n)
    {
      hide GoodRows, Backed, Claimed, RunsStored, OthersKept, HandoffReady, Request, Dispatched, ValidStart, InitialRecord,
           InitialTask, Normalized, JustDispatched, Refused, AsAsked;
      KeyedRows(Now());
      NothingDispatched(run, DefsOf(run.header.name), Here(), Now(), n);
      var definition := runs.SessionDefinition(run.header.name, run.steps[n].plan.agent);
      if definition.None? { return Some(Failing); }
      var request := RequestFor(run, n);
      if request.None? { return Some(ChangeMissing); }
      RequestName(run, n);
      var refused := sessions.Start(definition.value, request.value);
      StartIsDispatch(run, DefsOf(run.header.name), Here(), n);
      KeyedRows(Now());
      if run.steps[n].plan.session in sessions.rows.sessions && run.steps[n].plan.session !in old(sessions.rows.sessions) {
        assert BegunWith(Now(), definition.value, Normalized(definition.value, request.value), Here(),
                         sessions.rows.sessions[run.steps[n].plan.session].createdAt);
      }
      if refused == Some(Conflicting) { return Some(SessionTaken); }
      RefusedExactly(definition.value, request.value);
      if refused == Some(Invalid) { return Some(RequestRefused); }
      err := if refused.None? then None else Some(Failing);
    }

    /** Dispatches a step that is durably starting; however often that happens, its own session never refuses it. */
    method DispatchStep(w: WorkingRun, n: string, ghost r0: Run, ghost rank: Rank) returns (err: Option<RunFailure>)
      requires Valid() && Planned(r0.header, r0.steps, rank) && Sound(r0)
      requires n in r0.steps && r0.steps[n].state.Starting? && w.header == r0.header && Alike(r0.steps, w.steps)
      modifies sessions.rows, sessions.runtime
      ensures Valid()
      ensures Touches(SessionsOf(r0.steps), r0.header.name) && Adds()
      ensures old(Accounts(r0)) ==> Accounts(r0)
      ensures err == None ==> r0.steps[n].plan.session in sessions.rows.sessions
      ensures err.Some? && err.value != Failing ==> !old(Accounts(r0)) && err.value in {SessionTaken, RequestRefused}
    {
      hide GoodRows, Backed, Claimed, RunsStored, OthersKept, HandoffReady, Request, Dispatched, Accounted, Sound, Planned, Alike,
           StartedOne, Within, SessionsOf, ValidStart, Normalized;
      HandoffNeverFails(r0, rank, n);
      AlikeStep(r0, w.Contents(), n);
      SessionOf(r0.steps, n);
      ghost var a := Now();
      err := StartStep(w.Contents(), n);
      DispatchWithin(SessionsOf(r0.steps), w.Contents(), DefsOf(r0.header.name), Here(), a, Now(), n);
      if old(Accounts(r0)) {
        DispatchAccounted(r0, w.Contents(), DefsOf(r0.header.name), Here(), a, Now(), n);
        DispatchIsValid(r0, rank, DefsOf(r0.header.name), Here(), a.sessions, a.tasks, n);
      }
    }

    /** Dispatches every starting step in name order; the first failure ends the pass. */
    method StartPersistedSteps(w: WorkingRun, ghost r0: Run, ghost rank: Rank) returns (r: Result<seq<string>, RunFailure>)
      requires Valid() && w.Contents() == r0 && Planned(r0.header, r0.steps, rank) && Sound(r0)
      modifies w`steps, sessions.rows, sessions.runtime
      ensures Valid()
      ensures Touches(SessionsOf(r0.steps), r0.header.name) && Adds()
      ensures old(Accounts(r0)) ==> Accounts(r0)
      ensures r.Success? ==> w.steps == StartAll(r0.steps) && AllDispatched(r0.steps, r0.steps.Keys, sessions.rows.sessions)
      ensures r.Success? ==> (forall s | s in r.value :: s in SessionsOf(r0.steps)) && (r.value == [] ==> w.steps == r0.steps)
      ensures r.Failure? && r.error != Failing ==> !old(Accounts(r0)) && r.error in {SessionTaken, RequestRefused}
    {
      hide GoodRows, Backed, Claimed, RunsStored, Accounted, Sound, Planned, Alike, Within, AllDispatched, SessionsOf, Ascending,
           StartedIn, StartAll, Elements;
      var names := Sorted(w.steps.Keys);
      var started: seq<string> := [];
      NothingStarted(r0.steps, sessions.rows.sessions);
      KeyedRows(Now());
      WithinReflexive(SessionsOf(r0.steps), r0.header.name, Now());
      for i := 0 to |names|
        invariant Valid()
        invariant w.steps == StartedIn(r0.steps, names[..i])
        invariant AllDispatched(r0.steps, Elements(names[..i]), sessions.rows.sessions)
        invariant Touches(SessionsOf(r0.steps), r0.header.name) && Adds()
        invariant old(Accounts(r0)) ==> Accounts(r0)
        invariant forall s | s in started :: s in SessionsOf(r0.steps)
        invariant started == [] ==> w.steps == r0.steps
      {
        var n := names[i];
        ghost var before := Now();
        NextName(names, i);
        StartedInNext(r0.steps, names[..i], n);
        StartedAlike(r0.steps, names[..i]);
        var step := w.steps[n];
        if !step.state.Starting? {
          DispatchedNext(r0.steps, names, i, before.sessions, before.sessions);
          continue;
        }
        var err := DispatchStep(w, n, r0, rank);
        WithinTransitive(SessionsOf(r0.steps), r0.header.name, old(Now()), before, Now());
        if err.Some? { return Failure(err.value); }
        DispatchedNext(r0.steps, names, i, before.sessions, sessions.rows.sessions);
        SessionOf(r0.steps, n);
        w.steps := w.steps[n := step.(state := Running)];
        started := started + [step.plan.session];
      }
      assert names[..|names|] == names;
      StartedInAll(r0.steps, names);
      EveryElement(names, r0.steps.Keys);
      r := Success(started);
    }

    /** What the session component answers about a session's latest task. */
    method Ask(name: string) returns (r: Option<SessionReply>)
      requires Valid()
      modifies sessions.rows
      ensures Valid() && AskedOne(name, old(Now()), Now())
      ensures r.Some? ==> Answered(name, r.value, Now())
    {
      hide GoodRows, Backed, Claimed, RunsStored, OthersKept, HistoryGrows, NoneCanceled;
      KeyedRows(Now());
      NothingAsked(name, Now());
      var status := sessions.Status(name);
      KeyedRows(Now());
      if status.Failure? { return None; }
      HasLatest(name, sessions.rows.sessions, sessions.rows.tasks);
      match status.value
      case TaskPending | TaskRunning => return Some(Unfinished);
      case TaskFailed | TaskCanceled => return Some(Stopped);
      case _ =>
      ghost var between := Now();
      var artifacts := sessions.Artifacts(name);
      KeyedRows(Now());
      HasLatest(name, sessions.rows.sessions, sessions.rows.tasks);
      AskedTwice(name, old(Now()), between, Now());
      if artifacts.Failure? { return None; }
      FinishedStays(name, between, Now());
      r := Some(Reported(artifacts.value));
    }

    /** Asks about one running step's session. */
    method AskAbout(n: string, ghost r0: Run, ghost steps: Steps, ghost observed: map<string, Observation>, session: string)
      returns (r: Option<SessionReply>)
      requires Valid() && n in steps && n !in observed && steps[n].plan.session == session && Sighted(steps, observed, Now())
      modifies sessions.rows
      ensures Valid() && sessions.rows.sessions == old(sessions.rows.sessions)
      ensures Touches(SessionsOf(steps), r0.header.name)
      ensures r.Some? ==> Answered(session, r.value, Now())
      ensures Sighted(steps, observed, Now())
      ensures old(Accounts(r0)) ==> Accounts(r0)
    {
      hide GoodRows, Backed, Claimed, RunsStored, OthersKept, SameLength, NoneCanceled, Sighted, Answered, Accounted, Within, SessionsOf;
      ghost var before := Now();
      r := Ask(session);
      SightedLater(steps, observed, n, before, Now());
      SessionOf(steps, n);
      AskedWithin(SessionsOf(steps), r0.header.name, session, before, Now());
      if old(Accounts(r0)) { AskedAccounted(r0, DefsOf(r0.header.name), Here(), session, before, Now()); }
    }

    /** Observes every running step in name order and applies what its session reports; the first failure ends the pass. */
    method ObserveRunningSteps(w: WorkingRun, ghost r0: Run)
      returns (r: Result<bool, RunFailure>, ghost observed: map<string, Observation>)
      requires Valid() && forall n | n in w.steps :: w.steps[n].plan.name == n
      modifies w`steps, sessions.rows
      ensures Valid() && sessions.rows.sessions == old(sessions.rows.sessions)
      ensures Touches(SessionsOf(old(w.steps)), r0.header.name)
      ensures old(Accounts(r0)) ==> Accounts(r0)
      ensures r.Success? ==> w.steps == ObserveAll(old(w.steps), observed) && (!r.value ==> w.steps == old(w.steps))
      ensures r.Success? ==> forall n | n in old(w.steps) && old(w.steps)[n].state.Running? :: n in observed
      ensures r.Failure? ==> r.error == Failing
      ensures Sighted(old(w.steps), observed, Now())
    {
      hide GoodRows, Backed, Claimed, RunsStored, Accounted, Within, Sighted, Answered, SessionsOf, Ascending, ObserveStep, ObserveAll;
      var names := Sorted(w.steps.Keys);
      var changed := false;
      observed := map[];
      NothingObserved(w.steps, Now());
      KeyedRows(Now());
      WithinReflexive(SessionsOf(w.steps), r0.header.name, Now());
      for i := 0 to |names|
        invariant Valid() && sessions.rows.sessions == old(sessions.rows.sessions)
        invariant w.steps == ObserveAll(old(w.steps), observed)
        invariant ObservedSoFar(old(w.steps), names[..i], observed)
        invariant Sighted(old(w.steps), observed, Now())
        invariant Touches(SessionsOf(old(w.steps)), r0.header.name)
        invariant old(Accounts(r0)) ==> Accounts(r0)
        invariant !changed ==> w.steps == old(w.steps)
      {
        var n := names[i];
        NextName(names, i);
        NextObserved(old(w.steps), names[..i], observed, n);
        var step := w.steps[n];
        if !step.state.Running? { continue; }
        ghost var before := Now();
        var reply := AskAbout(n, r0, old(w.steps), observed, step.plan.session);
        WithinTransitive(SessionsOf(old(w.steps)), r0.header.name, old(Now()), before, Now());
        if reply.None? { return Failure(Failing), observed; }

        var now: int := *;
        var o := Observation(reply.value, now);
        OneMoreObserved(old(w.steps), names[..i], observed, n, o, Now());
        observed := observed[n := o];
        if reply.value.Unfinished? { continue; }
        w.steps := w.steps[n := ObserveStep(step, o, ProducesChange(w.steps, step.plan.name))];
        changed := true;
      }
      assert names[..|names|] == names;
      r := Success(changed);
    }

    /** The working copy is the value that the run's row had at the copy's version. */
    ghost predicate Loaded(w: WorkingRun, r0: Run)
      reads runs, w
    {
      var name := w.header.name;
      && r0.header == w.header
      && name in runs.histories && name in runs.rows
      && 0 < w.version <= |runs.histories[name]| && runs.histories[name][w.version - 1] == r0
    }

    /** The row still has that value. */
    ghost predicate IsCurrent(w: WorkingRun, r0: Run)
      reads runs, w
    {
      w.header.name in runs.rows && runs.rows[w.header.name] == Row(r0, w.version)
    }

    /** Saves the working copy as a move of the value it was loaded with. */
    method Save(w: WorkingRun, ghost r0: Run, ghost m: Move) returns (err: Option<RunFailure>, ghost saved: seq<Move>)
      requires Valid() && Loaded(w, r0) && Enabled(r0, m) && w.Contents() == Apply(r0, m)
      modifies runs`rows, runs`histories, w`version
      ensures Valid() && Grown(old(runs.histories), runs.histories)
      ensures err == None ==> Loaded(w, w.Contents()) && IsCurrent(w, w.Contents()) && saved == [m]
      ensures err.Some? ==> err.value == Failing || (err.value == LostRace && !(runs.alone && old(IsCurrent(w, r0))))
      ensures saved in {[], [m]}
      ensures runs.alone ==> SavedMoves(w.header.name, old(runs.histories), runs.histories, saved)
      ensures runs.alone && old(IsCurrent(w, r0)) ==>
                w.header.name in runs.rows && runs.rows[w.header.name].value in {r0, w.Contents()}
    {
      hide GoodRows, Backed, Claimed, RunsStored, Grown, Enabled, Apply, SavedMoves, RunChain;
      var name := w.header.name;
      ghost var h0 := runs.histories;
      StoredName(runs.rows, h0, name);
      assert Moves(r0, w.Contents());
      var failed := runs.Update(name, w.version, w.Contents());
      GrownName(h0, runs.histories, name);
      StoredName(runs.rows, runs.histories, name);
      saved := if failed.None? || (runs.alone && runs.histories != h0) then [m] else [];
      if runs.alone {
        NoneSaved(name, h0);
        if runs.histories != h0 { OneSaved(name, h0, m); }
      }
      if failed == Some(ConcurrentUpdate) { return Some(LostRace), saved; }
      if failed.Some? { return Some(Failing), saved; }
      w.version := w.version + 1;
      err := None;
    }

    /** Removes the compute, or everything, of a step's session. */
    method RemoveSession(name: string, storage: bool, ghost r0: Run, ghost n: string) returns (ok: bool)
      requires Valid() && n in r0.steps && r0.steps[n].plan.session == name && Sound(r0) && Removable(r0, n, storage)
      modifies sessions.rows, sessions.runtime
      ensures Valid()
      ensures Removing(name, storage, old(sessions.rows.sessions), old(sessions.rows.tasks), sessions.rows.sessions, sessions.rows.tasks)
      ensures Touches(SessionsOf(r0.steps), r0.header.name) && Drops()
      ensures old(Accounts(r0)) ==> Accounts(r0)
      ensures ok ==> NothingUnfinished(name, sessions.rows.sessions, sessions.rows.tasks)
      ensures ok && storage ==> name !in sessions.rows.sessions
      ensures JobsRemoved(name, old(sessions.runtime.jobs), sessions.runtime.jobs)
      ensures ok ==> JobsOf(sessions.runtime.jobs, name) == {}
    {
      hide GoodRows, Backed, Claimed, RunsStored, OthersKept, Accounted, SameLength, Sound, Removable, Within, SessionsOf, Removing;
      ghost var before := Now();
      var err := sessions.Delete(name, storage);
      if name in sessions.rows.sessions { HasLatest(name, sessions.rows.sessions, sessions.rows.tasks); }
      SessionOf(r0.steps, n);
      RemovedWithin(SessionsOf(r0.steps), r0.header.name, name, storage, before, Now());
      if old(Accounts(r0)) {
        AccountedAfterRemoving(r0, DefsOf(r0.header.name), Here(), before.sessions, before.tasks,
                               sessions.rows.sessions, sessions.rows.tasks, n, storage);
      }
      ok := err.None?;
    }

    /** Removes the compute of every completed step that is not publishable; the first failure ends it. */
    method CleanSessions(w: WorkingRun, ghost r0: Run) returns (ok: bool, changed: bool)
      requires Valid() && r0 == w.Contents() && Sound(r0)
      modifies w`steps, sessions.rows, sessions.runtime
      ensures Valid()
      ensures Touches(SessionsOf(r0.steps), r0.header.name) && Drops()
      ensures old(Accounts(r0)) ==> Accounts(r0)
      ensures ok ==> w.steps == CleanedIn(r0.steps, {}) && (!changed ==> w.steps == r0.steps)
      ensures ok ==> CleanedJobs(r0.steps, {}, sessions.runtime.jobs)
    {
      hide GoodRows, Backed, Claimed, RunsStored, Accounted, Sound, Within, SessionsOf, Removing, NothingUnfinished,
           CleanedJobs, JobsRemoved, CleanedIn;
      var unread := w.steps.Keys;
      changed := false;
      KeyedRows(Now());
      WithinReflexive(SessionsOf(r0.steps), r0.header.name, Now());
      NothingCleaned(r0.steps, sessions.runtime.jobs);
      while unread != {}
        invariant unread <= r0.steps.Keys
        invariant Valid()
        invariant w.steps == CleanedIn(r0.steps, unread) && (!changed ==> w.steps == r0.steps)
        invariant Touches(SessionsOf(r0.steps), r0.header.name) && Drops()
        invariant old(Accounts(r0)) ==> Accounts(r0)
        invariant CleanedJobs(r0.steps, unread, sessions.runtime.jobs)
      {
        var n :| n in unread;
        CleanedInNext(r0.steps, unread, n);
        var step := w.steps[n];
        ghost var before, jobs := Now(), sessions.runtime.jobs;
        if step.plan.publishable || !step.state.Completed? || step.cleaned {
          JobsCleanedWithout(r0.steps, unread, n, jobs);
          unread := unread - {n};
          continue;
        }
        var removed := RemoveSession(step.plan.session, false, r0, n);
        WithinTransitive(SessionsOf(r0.steps), r0.header.name, old(Now()), before, Now());
        if !removed { return false, changed; }
        JobsCleanedNext(r0.steps, unread, n, jobs, sessions.runtime.jobs);
        unread := unread - {n};
        w.steps := w.steps[n := step.(cleaned := true)];
        changed := true;
      }
      ok := true;
    }

    /** Cleans up after completed steps and records that, or does nothing when there is nothing to clean. */
    method CleanupCompletedSteps(w: WorkingRun, ghost r0: Run, ghost rank: Rank)
      returns (err: Option<RunFailure>, ghost saved: seq<Move>)
      requires Valid() && Loaded(w, r0) && r0 == w.Contents() && Planned(r0.header, r0.steps, rank) && Sound(r0)
      requires Enabled(r0, Clean(0))
      modifies w`steps, w`version, w`updatedAt, runs`rows, runs`histories, sessions.rows, sessions.runtime
      ensures Valid() && Grown(old(runs.histories), runs.histories)
      ensures Touches(SessionsOf(r0.steps), r0.header.name) && Drops()
      ensures err == None ==> Loaded(w, w.Contents()) && w.Contents() == Apply(r0, Clean(w.updatedAt))
      ensures err == None && (old(IsCurrent(w, r0)) || w.steps != r0.steps) ==> IsCurrent(w, w.Contents())
      ensures err == None ==> CleanedJobs(r0.steps, {}, sessions.runtime.jobs)
      ensures runs.alone && old(IsCurrent(w, r0)) && old(Accounts(r0)) ==>
                w.header.name in runs.rows && Accounts(runs.rows[w.header.name].value)
      ensures err.Some? ==> err.value == Failing || (err.value == LostRace && !(runs.alone && old(IsCurrent(w, r0))))
      ensures saved == [] || (|saved| == 1 && saved[0].Clean?)
      ensures runs.alone ==> SavedMoves(r0.header.name, old(runs.histories), runs.histories, saved)
    {
      hide GoodRows, Backed, Claimed, RunsStored, Accounted, Sound, Planned, Within, SessionsOf, Grown, Enabled, CleanedJobs,
           SavedMoves, RunChain, Apply, CleanedIn;
      GrownReflexive(runs.histories);
      StoredName(runs.rows, runs.histories, r0.header.name);
      NoneSaved(r0.header.name, runs.histories);
      saved := [];
      var ok, changed := CleanSessions(w, r0);
      if !ok { return Some(Failing), saved; }
      CleanedInAll(r0, w.updatedAt);
      if !changed { return None, saved; }

      var now: int := *;
      w.updatedAt := now;
      CleanedInAll(r0, now);
      if old(Accounts(r0)) { CleanAccounted(r0, now, rank, DefsOf(r0.header.name), Here(), Now()); }
      err, saved := Save(w, r0, Clean(now));
    }

    /** Removes the compute of every active step and cancels every unfinished one; the first failure ends it. */
    method CancelSessions(w: WorkingRun, at: int, ghost r0: Run) returns (ok: bool)
      requires Valid() && r0 == w.Contents() && Sound(r0) && r0.cancelRequested
      modifies w`steps, sessions.rows, sessions.runtime
      ensures Valid()
      ensures Touches(SessionsOf(r0.steps), r0.header.name) && Drops()
      ensures old(Accounts(r0)) ==> Accounts(r0)
      ensures ok ==> w.steps == CanceledIn(r0.steps, {}, at)
      ensures ok ==> Quiet(r0.steps, {}, Now(), sessions.runtime.jobs)
    {
      hide GoodRows, Backed, Claimed, RunsStored, Accounted, Sound, Within, SessionsOf, Removing, NothingUnfinished,
           Quiet, JobsRemoved, CanceledIn;
      var unread := w.steps.Keys;
      KeyedRows(Now());
      WithinReflexive(SessionsOf(r0.steps), r0.header.name, Now());
      NothingCanceled(r0.steps, at, Now(), sessions.runtime.jobs);
      while unread != {}
        invariant unread <= r0.steps.Keys
        invariant Valid()
        invariant w.steps == CanceledIn(r0.steps, unread, at)
        invariant Quiet(r0.steps, unread, Now(), sessions.runtime.jobs)
        invariant Touches(SessionsOf(r0.steps), r0.header.name) && Drops()
        invariant old(Accounts(r0)) ==> Accounts(r0)
      {
        var n :| n in unread;
        CanceledInNext(r0.steps, unread, n, at);
        var step := w.steps[n];
        ghost var before, jobs := Now(), sessions.runtime.jobs;
        match step.state {
          case Starting | Running =>
            var removed := RemoveSession(step.plan.session, false, r0, n);
            WithinTransitive(SessionsOf(r0.steps), r0.header.name, old(Now()), before, Now());
            if !removed { return false; }
            QuietAfterRemoving(r0.steps, unread, n, before, jobs, Now(), sessions.runtime.jobs);
            w.steps := w.steps[n := step.(state := Canceled, finishedAt := Some(at))];
          case Pending =>
            QuietWithout(r0.steps, unread, n, before, jobs);
            w.steps := w.steps[n := step.(state := Canceled, finishedAt := Some(at))];
          case _ =>
            QuietWithout(r0.steps, unread, n, before, jobs);
        }
        unread := unread - {n};
      }
      ok := true;
    }

    /** Ends a run whose cancellation was requested: no session is left with unfinished work, then the run is saved. */
    method ReconcileCancellation(w: WorkingRun, ghost r0: Run, ghost rank: Rank)
      returns (err: Option<RunFailure>, ghost saved: seq<Move>)
      requires Valid() && Loaded(w, r0) && r0 == w.Contents() && Planned(r0.header, r0.steps, rank) && Sound(r0)
      requires r0.cancelRequested && !r0.state.Ended()
      modifies w, runs`rows, runs`histories, sessions.rows, sessions.runtime
      ensures Valid() && Grown(old(runs.histories), runs.histories)
      ensures Touches(SessionsOf(r0.steps), r0.header.name) && Drops()
      ensures err == None ==> w.header == r0.header && Loaded(w, w.Contents()) && w.Contents() == Apply(r0, CancelAll(w.updatedAt))
      ensures err == None ==> IsCurrent(w, w.Contents())
      ensures err == None ==> Quiet(r0.steps, {}, Now(), sessions.runtime.jobs)
      ensures runs.alone && old(IsCurrent(w, r0)) && old(Accounts(r0)) ==>
                r0.header.name in runs.rows && Accounts(runs.rows[r0.header.name].value)
      ensures err.Some? ==> err.value == Failing || (err.value == LostRace && !(runs.alone && old(IsCurrent(w, r0))))
      ensures saved == [] || (|saved| == 1 && saved[0].CancelAll?)
      ensures runs.alone ==> SavedMoves(r0.header.name, old(runs.histories), runs.histories, saved)
    {
      hide GoodRows, Backed, Claimed, RunsStored, Accounted, Sound, Planned, Within, SessionsOf, Grown, Enabled, Quiet,
           SavedMoves, RunChain, Apply, CanceledIn;
      GrownReflexive(runs.histories);
      StoredName(runs.rows, runs.histories, r0.header.name);
      NoneSaved(r0.header.name, runs.histories);
      saved := [];
      var now: int := *;
      var ok := CancelSessions(w, now, r0);
      if !ok { return Some(Failing), saved; }
      w.state := RunCanceled;
      w.updatedAt := now;
      CanceledInAll(r0, now);
      if old(Accounts(r0)) {
        CancelAccounted(r0, now, rank, DefsOf(r0.header.name), Here(), Now(), sessions.runtime.jobs);
      }
      err, saved := Save(w, r0, CancelAll(now));
    }

    /** Dispatches, observes, and schedules on the working copy; true when anything changed. */
    method Progress(w: WorkingRun, ghost r0: Run, ghost rank: Rank)
      returns (r: Result<bool, RunFailure>, started: seq<string>, ghost m: Move)
      requires Valid() && r0 == w.Contents() && Planned(r0.header, r0.steps, rank) && Sound(r0)
      requires !r0.state.Ended() && !r0.cancelRequested
      modifies w`steps, w`state, w`updatedAt, sessions.rows, sessions.runtime
      ensures Valid()
      ensures Touches(SessionsOf(r0.steps), r0.header.name) && Adds()
      ensures old(Accounts(r0)) ==> Accounts(r0)
      ensures m.Reconcile? && Sighted(StartAll(r0.steps), m.observed, Now())
      ensures r.Success? ==> forall n | n in r0.steps && r0.steps[n].state.Active() :: n in m.observed
      ensures r == Success(true) ==> w.Contents() == Apply(r0, m) && (old(Accounts(r0)) ==> Accounts(w.Contents()))
      ensures r == Success(false) ==> ReconcileSteps(r0, m.observed, m.scheduledAt) == r0.steps
      ensures r.Success? ==> forall s | s in started :: s in SessionsOf(r0.steps)
      ensures r.Failure? && r.error != Failing ==> !old(Accounts(r0)) && r.error in {SessionTaken, RequestRefused}
    {
      hide GoodRows, Backed, Claimed, RunsStored, Accounted, Sound, Planned, Within, SessionsOf, Sighted, AllDispatched, ObserveAll, Schedule,
           RunStateOf, StartAll, DistinctSessions;
      m := Move.Reconcile(map[], 0, 0);
      started := [];
      var dispatched := StartPersistedSteps(w, r0, rank);
      NothingObserved(StartAll(r0.steps), Now());
      if dispatched.Failure? { return Failure(dispatched.error), [], m; }
      started := dispatched.value;
      ghost var between := Now();
      StartedPlans(r0.steps);
      PlannedNames(r0.header, r0.steps, rank);

      var seen, observed := ObserveRunningSteps(w, r0);
      WithinTransitive(SessionsOf(r0.steps), r0.header.name, old(Now()), between, Now());
      m := Move.Reconcile(observed, 0, 0);
      if seen.Failure? { return Failure(seen.error), started, m; }

      var now: int := *;
      var scheduled := w.ScheduleReadySteps(now);
      w.DeriveRunState();
      m := Move.Reconcile(observed, now, 0);
      if started == [] && !seen.value && !scheduled { return Success(false), started, m; }

      var saved: int := *;
      w.updatedAt := saved;
      m := Move.Reconcile(observed, now, saved);
      if old(Accounts(r0)) {
        EveryStarting(r0.steps, sessions.rows.sessions);
        ProgressAccounted(r0, m, rank, DefsOf(r0.header.name), Here(), Now());
      }
      r := Success(true);
    }

    /** The sessions that a run's creation gave its steps. */
    ghost function SessionNames(name: string): set<string>
      requires runs.Valid()
      reads runs
    {
      if name in runs.histories then SessionsOf(runs.histories[name][0].steps) else {}
    }

    /** The durable value of a run is accounted for, when this is the only controller. */
    ghost predicate DurablyAccounted(name: string)
      reads runs, sessions.rows
    {
      runs.alone && name in runs.rows && Accounts(runs.rows[name].value)
    }

    /** Reads a run into a working copy. */
    method Load(name: string) returns (r: Result<WorkingRun, RunFailure>, ghost rank: Rank)
      requires Valid()
      modifies runs`rows, runs`histories
      ensures Valid() && Grown(old(runs.histories), runs.histories)
      ensures runs.alone ==> runs.rows == old(runs.rows) && runs.histories == old(runs.histories)
      ensures r.Success? ==> fresh(r.value) && name in runs.rows && r.value.Contents() == runs.rows[name].value
      ensures r.Success? ==> r.value.header.name == name && Loaded(r.value, r.value.Contents()) && IsCurrent(r.value, r.value.Contents())
      ensures r.Success? ==> var run := r.value.Contents();
                && Planned(run.header, run.steps, rank) && Sound(run) && SessionsOf(run.steps) == SessionNames(name)
      ensures r == Failure(UnknownRun) ==> name !in runs.rows
      ensures r.Failure? ==> r.error == UnknownRun || r.error == Failing
    {
      hide GoodRows, Backed, Claimed, RunsStored, Grown, Sound, Planned, SessionsOf, Settled, RunChain;
      rank := map[];
      var row := runs.Get(name);
      if row.Failure? { return Failure(if row.error.NoRun? then UnknownRun else Failing), rank; }
      var w := new WorkingRun(row.value);
      StoredName(runs.rows, runs.histories, name);
      ghost var h := runs.histories[name];
      rank := ChainIsSound(name, h, |h| - 1);
      SameSessions(h[0].steps, h[|h| - 1].steps);
      r := Success(w);
    }

    /** Deletes the sessions that a lost race left behind for a run whose cancellation was requested meanwhile. */
    method CleanupCanceledStarts(name: string, started: seq<string>, ghost names: set<string>) returns (ok: bool)
      requires Valid() && forall s | s in started :: s in names
      modifies runs`rows, runs`histories, sessions.rows, sessions.runtime
      ensures Valid() && Grown(old(runs.histories), runs.histories)
      ensures runs.alone ==> runs.rows == old(runs.rows) && runs.histories == old(runs.histories)
      ensures Touches(names, name) && Drops()
      ensures ok && name in runs.rows && runs.rows[name].value.cancelRequested ==>
                forall s | s in started :: JobsOf(sessions.runtime.jobs, s) == {}
    {
      hide GoodRows, Backed, Claimed, RunsStored, Within, Grown, SameLength, JobsRemoved, Removing, SessionSteps.Works, OtherResources,
           PublishersRemoved;
      GrownReflexive(runs.histories);
      KeyedRows(Now());
      WithinReflexive(names, name, Now());
      if started == [] { return true; }
      var row := runs.Get(name);
      if row.Failure? { return false; }
      if !row.value.value.cancelRequested { return true; }
      ok := true;
      for i := 0 to |started|
        invariant Valid() && Grown(old(runs.histories), runs.histories)
        invariant runs.alone ==> runs.rows == old(runs.rows) && runs.histories == old(runs.histories)
        invariant Touches(names, name) && Drops()
        invariant ok ==> forall k | 0 <= k < i :: JobsOf(sessions.runtime.jobs, started[k]) == {}
      {
        ghost var before, jobs := Now(), sessions.runtime.jobs;
        var err := sessions.Delete(started[i], false);
        StillWithoutJobs(started, i, jobs, sessions.runtime.jobs);
        RemovedWithin(names, name, started[i], false, before, Now());
        WithinTransitive(names, name, old(Now()), before, Now());
        ok := ok && err.None?;
      }
    }

    /** Saves the working copy that a pass changed and cleans up after it; a lost race undoes what the pass started. */
    method SavePass(w: WorkingRun, started: seq<string>, ghost r0: Run, ghost m: Move, ghost rank: Rank)
      returns (err: Option<RunFailure>, ghost saved: seq<Move>)
      requires Valid() && Loaded(w, r0) && Planned(r0.header, r0.steps, rank) && Sound(r0)
      requires !r0.state.Ended() && !r0.cancelRequested && m.Reconcile? && w.Contents() == Apply(r0, m)
      requires forall s | s in started :: s in SessionsOf(r0.steps)
      modifies w, runs`rows, runs`histories, sessions.rows, sessions.runtime
      ensures Valid() && Grown(old(runs.histories), runs.histories)
      ensures Touches(SessionsOf(r0.steps), r0.header.name) && Drops()
      ensures runs.alone && old(IsCurrent(w, r0)) && old(Accounts(r0)) && old(Accounts(w.Contents())) ==>
                r0.header.name in runs.rows && Accounts(runs.rows[r0.header.name].value)
      ensures FromPass(m, saved) && (runs.alone ==> SavedMoves(r0.header.name, old(runs.histories), runs.histories, saved))
      ensures err == None ==> w.header == r0.header && IsCurrent(w, w.Contents()) && w.Contents() == Apply(Apply(r0, m), Clean(w.updatedAt))
      ensures err.Some? ==> err.value == Failing || (err.value == LostRace && !(runs.alone && old(IsCurrent(w, r0))))
    {
      hide GoodRows, Backed, Claimed, RunsStored, Accounted, Sound, Planned, Within, SessionsOf, Grown, Apply, Enabled, SavedMoves,
           RunChain, CleanedJobs, FromPass;
      ghost var name, h0, r1 := r0.header.name, runs.histories, w.Contents();
      KeyedRows(Now());
      WithinReflexive(SessionsOf(r0.steps), name, Now());
      ReconciledIsSound(r0, m, rank);
      err, saved := Save(w, r0, m);
      PassSaved(m, saved, []);
      ghost var h1 := runs.histories;
      if err == Some(LostRace) {
        var ok := CleanupCanceledStarts(w.header.name, started, SessionsOf(r0.steps));
        GrownTransitive(h0, h1, runs.histories);
        return;
      }
      if err.Some? { return; }
      ghost var more: seq<Move>;
      err, more := CleanupCompletedSteps(w, r1, rank);
      GrownTransitive(h0, h1, runs.histories);
      if runs.alone { BothSaved(name, h0, h1, runs.histories, saved, more); }
      PassSaved(m, saved, more);
      saved := saved + more;
    }

    /** One reconcile pass over an unfinished run that nobody asked to cancel, saved if it changed anything. */
    method Advance(w: WorkingRun, ghost r0: Run, ghost rank: Rank)
      returns (err: Option<RunFailure>, ghost m: Move, ghost saved: seq<Move>, ghost seen: RowsState)
      requires Valid() && Loaded(w, r0) && r0 == w.Contents() && Planned(r0.header, r0.steps, rank) && Sound(r0)
      requires !r0.state.Ended() && !r0.cancelRequested
      modifies w, runs`rows, runs`histories, sessions.rows, sessions.runtime
      ensures Valid() && Grown(old(runs.histories), runs.histories)
      ensures SeenWithin(SessionsOf(r0.steps), r0.header.name, old(Now()), seen, Now())
      ensures m.Reconcile? && Sighted(StartAll(r0.steps), m.observed, seen)
      ensures old(Accounts(r0)) ==> Accounted(r0, DefsOf(r0.header.name), Here(), seen.sessions, seen.tasks)
      ensures runs.alone && old(IsCurrent(w, r0)) && old(Accounts(r0)) ==>
                r0.header.name in runs.rows && Accounts(runs.rows[r0.header.name].value)
      ensures FromPass(m, saved) && (runs.alone ==> SavedMoves(r0.header.name, old(runs.histories), runs.histories, saved))
      ensures err == None && runs.alone && old(IsCurrent(w, r0)) ==>
                r0.header.name in runs.rows && PassOutcome(r0, m, runs.rows[r0.header.name].value)
      ensures err.Some? ==> err.value in {Failing, LostRace, SessionTaken, RequestRefused}
      ensures runs.alone && old(IsCurrent(w, r0)) ==> err != Some(LostRace)
      ensures old(Accounts(r0)) ==> err != Some(SessionTaken) && err != Some(RequestRefused)
    {
      hide GoodRows, Backed, Claimed, RunsStored, Accounted, Sound, Planned, Within, SessionsOf, Grown, Sighted, SeenWithin,
           Apply, Enabled, SavedMoves, RunChain, ReconcileSteps, PassOutcome;
      ghost var name, h0 := r0.header.name, runs.histories;
      GrownReflexive(h0);
      StoredName(runs.rows, h0, name);
      NoneSaved(name, h0);
      saved := [];
      var changed, started, pass := Progress(w, r0, rank);
      m, seen := pass, Now();
      SeenAtEnd(SessionsOf(r0.steps), name, old(Now()), seen);
      if changed.Failure? { return Some(changed.error), m, saved, seen; }
      if !changed.value {
        Unchanged(r0, m);
        return None, m, saved, seen;
      }
      err, saved := SavePass(w, started, r0, m, rank);
      SeenBefore(SessionsOf(r0.steps), name, old(Now()), seen, Now());
      Passed(r0, m, w.updatedAt);
    }

    /**
     * Advances one run by at most two durable moves, whatever fails in between: a reconcile pass or a completed
     * cancellation, and a cleanup. Nothing but the run's own sessions changes, and they stay accounted for.
     */
    method Reconcile(name: string)
      returns (err: Option<RunFailure>, ghost m: Move, ghost saved: seq<Move>, ghost seen: RowsState)
      requires Valid()
      modifies runs`rows, runs`histories, sessions.rows, sessions.runtime
      ensures Valid() && Grown(old(runs.histories), runs.histories)
      ensures SeenWithin(SessionNames(name), name, old(Now()), seen, Now())
      ensures FromPass(m, saved) && (runs.alone ==> SavedMoves(name, old(runs.histories), runs.histories, saved))
      ensures runs.alone && m.Reconcile? ==>
                && name in old(runs.rows) && Observing(old(runs.rows)[name].value, m, seen)
                && (old(DurablyAccounted(name)) ==>
                      Accounted(old(runs.rows)[name].value, DefsOf(name), Here(), seen.sessions, seen.tasks))
      ensures old(DurablyAccounted(name)) ==> DurablyAccounted(name)
      ensures err == None && runs.alone ==>
                && name in old(runs.rows) && name in runs.rows
                && ReconcileOutcome(old(runs.rows)[name].value, m, runs.rows[name].value)
      ensures err != Some(ChangeMissing)
      ensures err == Some(UnknownRun) ==> name !in runs.rows
      ensures old(DurablyAccounted(name)) ==> err.None? || err.value == Failing
    {
      hide GoodRows, Backed, Claimed, RunsStored, Accounted, Sound, Planned, Within, SessionsOf, Grown, Sighted, SeenWithin,
           Apply, Enabled, PassOutcome, SavedMoves, RunChain;
      ghost var h0 := runs.histories;
      StoredName(runs.rows, h0, name);
      NoneSaved(name, h0);
      m, saved, seen := Clean(0), [], Now();
      var loaded, rank := Load(name);
      GrownName(h0, runs.histories, name);
      StoredName(runs.rows, runs.histories, name);
      KeyedRows(Now());
      WithinReflexive(SessionNames(name), name, Now());
      SeenAtStart(SessionNames(name), name, seen, seen);
      if loaded.Failure? { return Some(loaded.error), m, saved, seen; }
      var w := loaded.value;
      ghost var r0, h1 := w.Contents(), runs.histories;

      if w.state.Terminal() {
        EndedCanClean(r0);
        err, saved := CleanupCompletedSteps(w, r0, rank);
        SeenAtStart(SessionsOf(r0.steps), name, seen, Now());
        GrownTransitive(h0, h1, runs.histories);
        GrownName(h1, runs.histories, name);
        return;
      }
      if w.state == RunDeleting { return None, m, saved, seen; }
      if w.cancelRequested {
        err, saved := ReconcileCancellation(w, r0, rank);
        SeenAtStart(SessionsOf(r0.steps), name, seen, Now());
        GrownTransitive(h0, h1, runs.histories);
        GrownName(h1, runs.histories, name);
        return;
      }
      err, m, saved, seen := Advance(w, r0, rank);
      GrownTransitive(h0, h1, runs.histories);
      GrownName(h1, runs.histories, name);
    }

    /** Records that a run is to be canceled; an ended run is left as it is. */
    method Cancel(name: string) returns (err: Option<RunFailure>, ghost saved: seq<Move>)
      requires Valid()
      modifies runs`rows, runs`histories
      ensures Valid() && Grown(old(runs.histories), runs.histories)
      ensures old(DurablyAccounted(name)) ==> DurablyAccounted(name)
      ensures saved == [] || (|saved| == 1 && saved[0].RequestCancel?)
      ensures runs.alone ==> SavedMoves(name, old(runs.histories), runs.histories, saved)
      ensures err == None ==> name in runs.rows && (runs.rows[name].value.cancelRequested || runs.rows[name].value.state.Terminal())
      ensures err == Some(UnknownRun) ==> name !in runs.rows
      ensures err.Some? ==> err.value in {UnknownRun, Failing, LostRace} && (err.value == LostRace ==> !runs.alone)
      ensures err == None && runs.alone ==> name in old(runs.rows) && CancelOutcome(old(runs.rows)[name].value, runs.rows[name].value)
    {
      hide GoodRows, Backed, Claimed, RunsStored, Accounted, Sound, Planned, SessionsOf, Grown, SavedMoves, RunChain;
      ghost var h0 := runs.histories;
      StoredName(runs.rows, h0, name);
      NoneSaved(name, h0);
      saved := [];
      var loaded, rank := Load(name);
      if loaded.Failure? { return Some(loaded.error), saved; }
      var w := loaded.value;
      if w.state.Terminal() { return None, saved; }
      ghost var r0, h1 := w.Contents(), runs.histories;
      var now: int := *;
      w.cancelRequested := true;
      w.updatedAt := now;
      if old(DurablyAccounted(name)) {
        FlagAccounted(r0, RequestCancel(now), rank, DefsOf(name), Here(), Now());
      }
      err, saved := Save(w, r0, RequestCancel(now));
      GrownTransitive(h0, h1, runs.histories);
    }

    /** Marks an ended run as being deleted, unless it already is. */
    method MarkDeleting(w: WorkingRun, ghost r0: Run, ghost rank: Rank)
      returns (err: Option<RunFailure>, ghost r1: Run, ghost saved: seq<Move>)
      requires Valid() && Loaded(w, r0) && IsCurrent(w, r0) && r0 == w.Contents() && Planned(r0.header, r0.steps, rank) && Sound(r0)
      requires r0.state.Ended()
      modifies w, runs`rows, runs`histories
      ensures Valid() && Grown(old(runs.histories), runs.histories)
      ensures runs.alone && old(Accounts(r0)) ==>
                r0.header.name in runs.rows && Accounts(runs.rows[r0.header.name].value)
      ensures w.header == r0.header && r1 == w.Contents() && r1.steps == r0.steps
      ensures err.Some? ==> err.value == Failing || (err.value == LostRace && !runs.alone)
      ensures err == None ==> r1.state.RunDeleting? && Sound(r1) && Loaded(w, r1) && IsCurrent(w, r1)
      ensures saved == [] || (|saved| == 1 && saved[0].BeginDelete?)
      ensures runs.alone ==> SavedMoves(r0.header.name, old(runs.histories), runs.histories, saved)
    {
      hide GoodRows, Backed, Claimed, RunsStored, Accounted, Sound, Planned, SessionsOf, Grown, SavedMoves, RunChain;
      GrownReflexive(runs.histories);
      StoredName(runs.rows, runs.histories, r0.header.name);
      NoneSaved(r0.header.name, runs.histories);
      r1, saved := r0, [];
      if w.state == RunDeleting { return None, r1, saved; }
      var now: int := *;
      w.state := RunDeleting;
      w.updatedAt := now;
      r1 := w.Contents();
      MoveKeeps(r0, BeginDelete(now), rank);
      if old(Accounts(r0)) {
        FlagAccounted(r0, BeginDelete(now), rank, DefsOf(r0.header.name), Here(), Now());
      }
      err, saved := Save(w, r0, BeginDelete(now));
    }

    /** Destroys every session of a run that is being deleted, in name order; the first failure ends it. */
    method DestroySessions(w: WorkingRun, ghost r1: Run) returns (ok: bool)
      requires Valid() && r1 == w.Contents() && Sound(r1) && r1.state.RunDeleting?
      modifies sessions.rows, sessions.runtime
      ensures Valid()
      ensures Touches(SessionsOf(r1.steps), r1.header.name) && Drops()
      ensures old(Accounts(r1)) ==> Accounts(r1)
      ensures ok ==> SessionsOf(r1.steps) !! sessions.rows.sessions.Keys
    {
      hide GoodRows, Backed, Claimed, RunsStored, Accounted, Sound, Within, SessionsOf, Ascending, NothingUnfinished, Removing;
      var names := Sorted(w.steps.Keys);
      KeyedRows(Now());
      WithinReflexive(SessionsOf(r1.steps), r1.header.name, Now());
      for i := 0 to |names|
        invariant Valid()
        invariant forall n | n in names[..i] :: n in r1.steps && r1.steps[n].plan.session !in sessions.rows.sessions
        invariant Touches(SessionsOf(r1.steps), r1.header.name) && Drops()
        invariant old(Accounts(r1)) ==> Accounts(r1)
      {
        var session := w.steps[names[i]].plan.session;
        ghost var before := Now();
        var removed := RemoveSession(session, true, r1, names[i]);
        WithinTransitive(SessionsOf(r1.steps), r1.header.name, old(Now()), before, Now());
        if !removed { return false; }
        assert names[..i + 1] == names[..i] + [names[i]];
      }
      assert names[..|names|] == names;
      AllGone(r1.steps, sessions.rows.sessions);
      ok := true;
    }

    /** Nothing is left of these sessions. */
    ghost predicate Vanished(names: set<string>)
      reads sessions.rows, sessions.runtime
    {
      forall s | s in names ::
        s !in sessions.rows.sessions && JobsOf(sessions.runtime.jobs, s) == {} && s !in sessions.runtime.claims
    }

    /** No session was started for this run. */
    ghost predicate Unowned(name: string)
      reads sessions.rows
    {
      forall s | s in sessions.rows.sessions :: sessions.rows.sessions[s].workflowRun != name
    }

    /** Destroys the sessions of a run that is being deleted, and removes its row only when none of them is left. */
    method DestroyRun(w: WorkingRun, ghost r1: Run) returns (err: Option<RunFailure>)
      requires Valid() && r1 == w.Contents() && Sound(r1) && r1.state.RunDeleting?
      modifies runs`rows, runs`snapshots, runs`histories, sessions.rows, sessions.runtime
      ensures Valid()
      ensures Touches(SessionsOf(r1.steps), r1.header.name)
      ensures err == None ==> w.header.name !in runs.rows
      ensures err.Some? ==> err.value == Failing
      ensures w.header.name in runs.rows ==>
                && runs.rows == old(runs.rows) && runs.snapshots == old(runs.snapshots) && runs.histories == old(runs.histories)
                && (old(Accounts(r1)) ==> Accounts(r1))
      ensures runs.histories - {w.header.name} == old(runs.histories) - {w.header.name}
      ensures runs.snapshots - {w.header.name} == old(runs.snapshots) - {w.header.name}
      ensures w.header.name in old(runs.rows) && w.header.name !in runs.rows ==>
                Vanished(SessionsOf(r1.steps)) && (old(Accounts(r1)) ==> Unowned(w.header.name))
    {
      hide GoodRows, Backed, Claimed, RunsStored, Accounted, Sound, Within, SessionsOf;
      var ok := DestroySessions(w, r1);
      if !ok { return Some(Failing); }
      NothingLeft(SessionsOf(r1.steps), sessions.rows.sessions, sessions.rows.tasks, sessions.runtime.jobs, sessions.runtime.claims);
      if old(Accounts(r1)) {
        NoneOwned(r1, DefsOf(w.header.name), Here(), sessions.rows.sessions, sessions.rows.tasks);
      }
      var gone := runs.Delete(w.header.name);
      err := if gone.None? then None else Some(Failing);
    }

    /** Deletes an ended run: its sessions go first, and the run's row only when none of them is left. */
    method Delete(name: string) returns (err: Option<RunFailure>, ghost saved: seq<Move>)
      requires Valid()
      modifies runs`rows, runs`snapshots, runs`histories, sessions.rows, sessions.runtime
      ensures Valid()
      ensures Touches(old(SessionNames(name)), name)
      ensures err == None ==> name !in runs.rows
      ensures err == Some(UnknownRun) ==> name !in runs.rows
      ensures err == Some(NotAllowed) ==> name in runs.rows && !runs.rows[name].value.state.Ended()
      ensures err.Some? ==> err.value in {UnknownRun, NotAllowed, Failing, LostRace} && (err.value == LostRace ==> !runs.alone)
      ensures runs.snapshots - {name} == old(runs.snapshots) - {name}
      ensures runs.alone ==> runs.histories - {name} == old(runs.histories) - {name} && (name in runs.rows ==> name in old(runs.rows))
      ensures saved == [] || (|saved| == 1 && saved[0].BeginDelete?)
      ensures runs.alone && name in runs.rows ==>
                runs.snapshots == old(runs.snapshots) && SavedMoves(name, old(runs.histories), runs.histories, saved)
      ensures runs.alone && name in old(runs.rows) && !old(runs.rows)[name].value.state.Ended() ==>
                err.Some? && runs.rows == old(runs.rows) && sessions.rows.sessions == old(sessions.rows.sessions)
                && sessions.runtime.jobs == old(sessions.runtime.jobs)
      ensures name in runs.rows ==> old(DurablyAccounted(name)) ==> DurablyAccounted(name)
      ensures name in old(runs.rows) && name !in runs.rows ==>
                Vanished(old(SessionNames(name))) && (old(DurablyAccounted(name)) ==> Unowned(name))
    {
      hide GoodRows, Backed, Claimed, RunsStored, Accounted, Sound, Planned, Within, SessionsOf, Grown, SavedMoves, RunChain,
           Vanished, Unowned, Loaded;
      ghost var h0 := runs.histories;
      StoredName(runs.rows, h0, name);
      NoneSaved(name, h0);
      saved := [];
      KeyedRows(Now());
      WithinReflexive(SessionNames(name), name, Now());
      var loaded, rank := Load(name);
      GrownName(h0, runs.histories, name);
      StoredName(runs.rows, runs.histories, name);
      if loaded.Failure? { return Some(loaded.error), saved; }
      var w := loaded.value;
      if !w.state.Terminal() && w.state != RunDeleting { return Some(NotAllowed), saved; }
      ghost var h1 := runs.histories;
      var failed, r1, marked := MarkDeleting(w, w.Contents(), rank);
      saved := marked;
      GrownName(h1, runs.histories, name);
      StoredName(runs.rows, runs.histories, name);
      if runs.alone { OthersSame(name, h0, runs.histories, saved); }
      if failed.Some? { return failed, saved; }
      err := DestroyRun(w, r1);
    }

    /** Checks a request against the catalog and the name rules. */
    method ValidateStart(request: RunRequest) returns (r: Result<Catalog.WorkflowDefinition, RunFailure>)
      ensures r.Success? <==> AcceptableRun(catalog, request)
      ensures r.Success? ==> r.value == catalog[request.workflow]
      ensures r == Failure(UnknownRun) <==> request.workflow !in catalog
      ensures r == Failure(BadRequest) <==>
                request.workflow in catalog && (!IsLabel(request.name, 31) || IsBlank(request.repository) || IsBlank(request.prompt))
      ensures r.Failure? ==> r.error == UnknownRun || r.error == BadRequest
    {
      if request.workflow !in catalog { return Failure(UnknownRun); }
      if !IsLabel(request.name, RUN_NAME_MAX) { return Failure(BadRequest); }
      if IsBlank(request.repository) || IsBlank(request.prompt) { return Failure(BadRequest); }
      r := Success(catalog[request.workflow]);
    }

    /** The steps a run is created with, filled in whatever order the map yields them. */
    method BuildSteps(definition: Catalog.WorkflowDefinition, run: string) returns (steps: Steps)
      ensures steps == FreshSteps(definition, run, stepDigest)
    {
      steps := map[];
      var unread := definition.steps.Keys;
      while unread != {}
        invariant unread <= definition.steps.Keys
        invariant steps == map n | n in definition.steps && n !in unread :: FreshStep(definition.steps[n], n, run, stepDigest)
      {
        var n :| n in unread;
        unread := unread - {n};
        steps := steps[n := FreshStep(definition.steps[n], n, run, stepDigest)];
      }
    }

    /** The definition of every agent a step names. */
    method ResolvedSessions(definition: Catalog.WorkflowDefinition) returns (defs: Snapshots)
      requires Configured(definition)
      ensures Resolves(definition, defs)
    {
      hide Catalog.ValidSteps, Ranks, IsLabel, ValidAgent;
      defs := map[];
      var unread := definition.steps.Keys;
      while unread != {}
        invariant unread <= definition.steps.Keys
        invariant forall n | n in definition.steps && n !in unread ::
                    definition.steps[n].agent in defs && defs[definition.steps[n].agent] == definition.steps[n].session
      {
        var n :| n in unread;
        unread := unread - {n};
        assert forall m | m in definition.steps && definition.steps[m].agent == definition.steps[n].agent ::
            definition.steps[m].session == definition.steps[n].session;
        defs := defs[definition.steps[n].agent := definition.steps[n].session];
      }
    }

    /** The existing run of this name, which must have been created to do the same; none when there is no such run. */
    method Existing(name: string, intent: string) returns (r: Result<Option<Run>, RunFailure>)
      requires Valid()
      modifies runs`rows, runs`histories
      ensures Valid() && Grown(old(runs.histories), runs.histories)
      ensures runs.alone ==> runs.rows == old(runs.rows) && runs.histories == old(runs.histories)
      ensures r.Success? && r.value.Some? ==>
                && name in runs.rows && runs.rows[name].value == r.value.value
                && r.value.value.header.name == name && r.value.value.header.intent == intent
      ensures r == Success(None) ==> name !in runs.histories
      ensures r.Failure? ==> r.error == NotAllowed || r.error == Failing
      ensures r == Failure(NotAllowed) ==> name in runs.rows && runs.rows[name].value.header.intent != intent
    {
      hide GoodRows, Backed, Claimed, RunsStored, Grown, RunChain;
      var row := runs.Get(name);
      StoredName(runs.rows, runs.histories, name);
      if row.Failure? { return if row.error.NoRun? then Success(None) else Failure(Failing); }
      StoredHeader(runs.rows, runs.histories, name);
      if row.value.value.header.intent != intent { return Failure(NotAllowed); }
      r := Success(Some(row.value.value));
    }

    /** The run that a request creates. */
    method BuildRun(request: RunRequest, definition: Catalog.WorkflowDefinition, at: int) returns (run: Run, defs: Snapshots)
      requires Valid() && Configured(definition) && IsLabel(request.name, RUN_NAME_MAX) && !IsBlank(request.repository)
      ensures Storable(run) && IsRunFor(run, request, definition, digest, stepDigest) && CreatedAs(run, request, definition, stepDigest)
      ensures Resolves(definition, defs)
      ensures Unused(run, sessions.rows.sessions) ==>
                Accounted(run, defs, Here(), sessions.rows.sessions, sessions.rows.tasks)
    {
      hide GoodRows, Backed, Claimed, RunsStored, Accounted, Configured, Resolves, IsRunFor, CreatedAs, Storable, Unused, FreshSteps, Hexadecimal,
           IsLabel, IsBlank;
      var request' := Defaulted(request);
      var steps := BuildSteps(definition, request.name);
      run := Run(Header(request.name, definition.name, definition.description, request'.repository, request'.ref,
                        request'.prompt, digest(request', definition), definition.maxParallelism, at), RunPending, false, steps, at);
      defs := ResolvedSessions(definition);
      CreatedRun(run, request, definition, digest, stepDigest, at);
      CreatedExactly(run, request, definition, digest, stepDigest);
      if Unused(run, sessions.rows.sessions) {
        KeyedRows(Now());
        CreatedAccounted(run, request, definition, defs, digest, stepDigest, Here(), sessions.rows.sessions, sessions.rows.tasks);
      }
    }

    /** Inserts the run of an accepted request, unless someone else just did. */
    method Insert(request: RunRequest, definition: Catalog.WorkflowDefinition, intent: string) returns (r: Result<Run, RunFailure>)
      requires Valid() && Configured(definition) && IsLabel(request.name, RUN_NAME_MAX) && !IsBlank(request.repository)
      requires intent == digest(Defaulted(request), definition)
      modifies runs`rows, runs`snapshots, runs`histories
      ensures Valid() && KeptBut(request.name, old(runs.histories), runs.histories)
      ensures runs.snapshots - {request.name} == old(runs.snapshots) - {request.name}
      ensures runs.alone ==> runs.histories - {request.name} == old(runs.histories) - {request.name}
      ensures runs.alone && request.name in old(runs.histories) ==>
                runs.histories == old(runs.histories) && runs.snapshots == old(runs.snapshots)
      ensures r.Success? ==>
                && request.name in runs.rows && runs.rows[request.name].value == r.value
                && r.value.header.name == request.name && r.value.header.intent == intent
      ensures request.name in runs.histories && request.name !in old(runs.histories) ==>
                && IsRunFor(runs.histories[request.name][0], request, definition, digest, stepDigest)
                && CreatedAs(runs.histories[request.name][0], request, definition, stepDigest)
                && request.name in runs.snapshots && Resolves(definition, runs.snapshots[request.name])
                && (runs.alone ==> |runs.histories[request.name]| == 1)
                && (runs.alone && Unused(runs.histories[request.name][0], sessions.rows.sessions) ==> DurablyAccounted(request.name))
      ensures r.Failure? ==> r.error == NotAllowed || r.error == Failing
      ensures r == Failure(NotAllowed) ==> request.name in runs.rows && runs.rows[request.name].value.header.intent != intent
    {
      hide GoodRows, Backed, Claimed, RunsStored, Accounted, Grown, Configured, Resolves, IsRunFor, CreatedAs, Storable, Unused, RunChain, IsLabel, IsBlank, KeptBut,
           Defaulted;
      ghost var h0 := runs.histories;
      StoredName(runs.rows, h0, request.name);
      var now: int := *;
      var run, defs := BuildRun(request, definition, now);
      RunForNames(run, request, definition, digest, stepDigest);
      var err := runs.Create(run, defs);
      ghost var h1 := runs.histories;
      CreateKeeps(h0, h1, run);
      if err == None { return Success(run); }

      var existing := Existing(request.name, intent);
      GrownName(h1, runs.histories, request.name);
      GrownKeeps(request.name, h0, h1, runs.histories);
      StoredName(runs.rows, runs.histories, request.name);
      if existing.Failure? { return Failure(existing.error); }
      r := if existing.value.Some? then Success(existing.value.value) else Failure(Failing);
    }

    /** Creates a run, or finds an existing one that was created to do the same. */
    method Start(request: RunRequest) returns (r: Result<Run, RunFailure>)
      requires Valid() && (forall n | n in catalog :: Configured(catalog[n]))
      modifies runs`rows, runs`snapshots, runs`histories
      ensures Valid() && KeptBut(request.name, old(runs.histories), runs.histories)
      ensures runs.snapshots - {request.name} == old(runs.snapshots) - {request.name}
      ensures runs.alone ==> runs.histories - {request.name} == old(runs.histories) - {request.name}
      ensures runs.alone && request.name in old(runs.histories) ==>
                runs.histories == old(runs.histories) && runs.snapshots == old(runs.snapshots)
      ensures r.Success? ==>
                && AcceptableRun(catalog, request) && request.name in runs.rows && runs.rows[request.name].value == r.value
                && r.value.header.name == request.name && r.value.header.intent == digest(Defaulted(request), catalog[request.workflow])
      ensures request.name in runs.histories && request.name !in old(runs.histories) ==>
                && AcceptableRun(catalog, request)
                && IsRunFor(runs.histories[request.name][0], request, catalog[request.workflow], digest, stepDigest)
                && CreatedAs(runs.histories[request.name][0], request, catalog[request.workflow], stepDigest)
                && request.name in runs.snapshots && Resolves(catalog[request.workflow], runs.snapshots[request.name])
                && (runs.alone ==> |runs.histories[request.name]| == 1)
                && (runs.alone && Unused(runs.histories[request.name][0], sessions.rows.sessions) ==> DurablyAccounted(request.name))
      ensures r == Failure(UnknownRun) <==> request.workflow !in catalog
      ensures r == Failure(BadRequest) <==>
                request.workflow in catalog && (!IsLabel(request.name, 31) || IsBlank(request.repository) || IsBlank(request.prompt))
      ensures r == Failure(NotAllowed) ==>
                && AcceptableRun(catalog, request) && request.name in runs.rows
                && runs.rows[request.name].value.header.intent != digest(Defaulted(request), catalog[request.workflow])
      ensures r.Failure? ==> r.error in {BadRequest, UnknownRun, NotAllowed, Failing}
    {
      hide Resolves, CreatedAs, Defaulted, GoodRows, Backed, Claimed, RunsStored, Accounted, Grown, Configured, IsRunFor, Unused, AcceptableRun, RunChain, IsLabel, IsBlank, KeptBut;
      ghost var h0 := runs.histories;
      GrownReflexive(h0);
      GrownKeeps(request.name, h0, h0, h0);
      var definition := ValidateStart(request);
      if definition.Failure? { return Failure(definition.error); }
      AcceptedRequest(catalog, request);
      var intent := digest(Defaulted(request), definition.value);

      var existing := Existing(request.name, intent);
      ghost var h1 := runs.histories;
      GrownKeeps(request.name, h0, h0, h1);
      GrownName(h0, h1, request.name);
      if existing.Failure? { return Failure(existing.error); }
      if existing.value.Some? { return Success(existing.value.value); }
      r := Insert(request, definition.value, intent);
      KeptTwice(request.name, h0, h1, runs.histories);
    }
  }
}
