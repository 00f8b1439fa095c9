/**
 * The server: one workflow controller and the session interface over the same rows, called in any order. A crash is a
 * call that fails, at whatever point; the server keeps nothing in memory that a restart would lose.
 */
module Serving {
  import WorkflowControl
  import opened Prelude
  import opened SessionTypes
  import opened SessionTasks
  import opened SessionStore
  import opened SessionControl
  import opened WorkflowRun
  import opened RunMoves
  import opened OptimisticRows
  import opened WorkflowStore
  import opened Accounting
  import opened RunCreation
  import opened RunObservation
  import opened RunEnding
  import opened RunSaving
  import opened Truth
  import opened RunsEnd
  import opened ServedRuns
  import opened Confluence
  import opened StepSessions

  class Service {
    const control: WorkflowControl.Control
    /** What the agents make of whatever a session is started to do. */
    ghost const work: Work
    /** The runs that were created while nobody used the names of their sessions. */
    ghost var tracked: set<string>
    /** Every pass so far saw sessions whose finished tasks say what the agents make of them. */
    ghost var truthful: bool

    ghost function Durable(): State
      reads control.runs, control.sessions.rows
    {
      State(control.runs.rows, control.runs.snapshots, control.runs.histories, control.Now())
    }

    /** The controller is alone, and every tracked run is accounted for and done by the agents. */
    ghost predicate Valid()
      reads this, control, control.runs, control.sessions, control.sessions.rows, control.sessions.runtime
    {
      && control.Valid() && control.runs.alone
      && (forall n | n in control.catalog :: Configured(control.catalog[n]))
      && AllKept(Durable(), control.Here(), work, truthful, tracked)
    }

    constructor (control: WorkflowControl.Control, ghost work: Work)
      requires control.Valid() && control.runs.alone && (forall n | n in control.catalog :: Configured(control.catalog[n]))
      ensures Valid() && this.control == control && this.work == work && tracked == {} && truthful
    {
      this.control, this.work, tracked, truthful := control, work, {}, true;
    }

    lemma Stored()
      requires control.Valid()
      ensures WellStored(Durable())
    {
      hide RunsStored, GoodRows;
    }

    lemma NamesOf(name: string)
      requires control.Valid()
      ensures control.SessionNames(name) == SessionsOfRun(Durable(), name)
    {
      hide RunsStored, SessionsOf, RunChain;
      StoredName(control.runs.rows, control.runs.histories, name);
    }

    /** A tracked run is durably accounted for. */
    lemma TrackedIsAccounted(name: string)
      requires Valid() && name in tracked
      ensures control.DurablyAccounted(name) && control.runs.rows[name].value.header.name == name && name != ""
      ensures name in control.runs.snapshots && name in control.runs.histories
    {
      hide RunsStored, GoodRows, Accounted, DoneBy, WellStored;
      Stored();
      assert Kept(Durable(), control.Here(), work, truthful, name);
      KeptIsAccounted(Durable(), control.Here(), work, truthful, name);
    }

    /**
     * Whatever was called, every recorded session of a tracked run does the step whose session it is, as the run was created:
     * its row and its one task say so field by field.
     */
    lemma StepsAreDone(name: string, n: string)
      requires Valid() && name in tracked && n in control.runs.rows[name].value.steps
      requires control.runs.rows[name].value.steps[n].plan.session in control.sessions.rows.sessions
      ensures var run, created := control.runs.rows[name].value, control.runs.histories[name][0];
              var plan, rows := run.steps[n].plan, control.sessions.rows;
              && run.header == created.header && n in created.steps && plan == created.steps[n].plan
              && plan.agent in control.DefsOf(name) && plan.session in rows.tasks && |rows.tasks[plan.session]| == 1
              && DoesStep(run, n, control.DefsOf(name)[plan.agent], control.Here(), rows.sessions[plan.session], rows.tasks[plan.session][0])
    {
      hide RunsStored, GoodRows, Backed, Claimed, Accounted, DoneBy, WellStored, Planned, Sound, DoesStep, SessionsOf, Storable;
      TrackedIsAccounted(name);
      Stored();
      var rank := StoredValue(Durable(), name);
      var h := control.runs.histories[name];
      rank := ChainIsSound(name, h, |h| - 1);
      SessionDoesStep(control.runs.rows[name].value, rank, control.DefsOf(name), control.Here(), control.sessions.rows.sessions,
                      control.sessions.rows.tasks, n);
    }

    /** A change handed on by a tracked run is still there: the claim that holds it goes only once the run is being deleted. */
    lemma SourceIsClaimed(name: string, n: string)
      requires Valid() && name in tracked && n in control.runs.rows[name].value.steps
      requires var run := control.runs.rows[name].value;
               run.steps[n].state.Begun() && run.steps[n].plan.changeFrom != "" && !run.state.RunDeleting?
      ensures var steps := control.runs.rows[name].value.steps;
              && steps[n].plan.changeFrom in steps
              && steps[steps[n].plan.changeFrom].plan.session in control.sessions.runtime.claims
    {
      hide RunsStored, GoodRows, Backed, Claimed, Accounted, DoneBy, WellStored, Planned, Sound, RunChain, SessionsOf;
      TrackedIsAccounted(name);
      Stored();
      var rank := StoredValue(Durable(), name);
      var run := control.runs.rows[name].value;
      SourceKept(run, rank, control.DefsOf(name), control.Here(), control.sessions.rows.sessions, control.sessions.rows.tasks,
                 control.sessions.runtime.jobs, control.sessions.runtime.claims, n);
      PlannedSource(run.header, run.steps, rank, n);
    }

    /** Creates a run; it is tracked from then on if nobody used its names. */
    method Start(request: RunRequest) returns (r: Result<Run, WorkflowControl.RunFailure>)
      requires Valid()
      modifies control.runs, `tracked
      ensures Valid() && truthful == old(truthful)
      ensures tracked == TrackedAfter(old(tracked), old(Durable()), Durable())
    {
      hide RunsStored, GoodRows, Backed, Claimed, Accounted, DoneBy, Kept, AllKept, WellStored, Within, SessionsOfRun, Configured, KeptBut,
           RunChain, Unused, IsRunFor, SessionsOf, TrackedAfter;
      ghost var before := Durable();
      Stored();
      TrackedAreStored(before, control.Here(), work, truthful, tracked);
      KeyedRows(before.now);
      WithinReflexive(SessionsOfRun(before, request.name), request.name, before.now);
      r := control.Start(request);
      Stored();
      StartedHistories(request.name, before.histories, control.runs.histories);
      CreatedTracked(tracked, before, Durable(), request.name);
      NeighborsKept(before, Durable(), control.Here(), work, truthful, truthful, request.name, tracked);
      StoredName(control.runs.rows, control.runs.histories, request.name);
      if request.name in tracked {
        KeptOne(before, control.Here(), work, truthful, tracked, request.name);
        IdleKept(before, Durable(), control.Here(), work, truthful, request.name);
      } else if request.name in control.runs.histories && request.name !in old(control.runs.histories)
                && Unused(control.runs.histories[request.name][0], control.sessions.rows.sessions) {
        StoredHeader(control.runs.rows, control.runs.histories, request.name);
        CreatedKept(Durable(), control.Here(), work, truthful, request.name);
        tracked := tracked + {request.name};
        assert tracked - {request.name} == old(tracked) - {request.name};
      }
      KeptWith(Durable(), control.Here(), work, truthful, tracked, request.name);
    }

    /**
     * Advances a run by one pass. A tracked run is never refused a session, and a pass without an error over finished
     * sessions brings it nearer to its end.
     */
    method Reconcile(name: string) returns (err: Option<WorkflowControl.RunFailure>, ghost p: Pass)
      requires Valid()
      modifies control.runs, control.sessions.rows, control.sessions.runtime, `truthful
      ensures Valid() && IsPass(p) && p.name == name && p.before == old(Durable()) && p.after == Durable()
      ensures truthful == (old(truthful) && SawTruth(work, p))
      ensures name in tracked ==> err.None? || err.value == WorkflowControl.Failing
      ensures err == None && name in tracked && SawFinished(p) ==>
                && name in p.before.rows && name in p.after.rows
                && Nearer(Remaining(p.before.rows[name].value), Remaining(p.after.rows[name].value))
      ensures err == None ==>
                && name in p.before.rows && name in p.after.rows
                && ReconcileOutcome(p.before.rows[name].value, p.m, p.after.rows[name].value)
    {
      hide RunsStored, GoodRows, Backed, Claimed, Accounted, DoneBy, Kept, AllKept, WellStored, Within, SessionsOfRun, Configured,
           RunChain, SessionsOf, SeenWithin, Observing, Truthful, ReconcileOutcome, Remaining, SavedMoves, FromPass, AllFinished,
           Grown;
      ghost var before := Durable();
      Stored();
      if name in tracked { TrackedIsAccounted(name); }
      ghost var m, saved, seen;
      err, m, saved, seen := control.Reconcile(name);
      Stored();
      SeenTouches(control.SessionNames(name), name, before.now, seen, Durable().now);
      SavedLeaves(before, Durable(), name, saved);
      NamesOf(name);
      p := Pass(name, before, m, saved, seen, Durable());
      truthful := truthful && SawTruth(work, p);
      NeighborsKept(before, Durable(), control.Here(), work, old(truthful), truthful, name, tracked);
      if name in tracked {
        KeptOne(before, control.Here(), work, old(truthful), tracked, name);
        StoredHeader(control.runs.rows, control.runs.histories, name);
        MovedKept(before, Durable(), control.Here(), work, old(truthful), truthful, name, m, saved, seen);
        if err == None && SawFinished(p) { PassIsNearer(before, Durable(), control.Here(), name, m, seen); }
      }
      KeptWith(Durable(), control.Here(), work, truthful, tracked, name);
    }

    /** Advances every run that has not ended or is still to be cleaned up. */
    method ReconcileAll() returns (ok: bool, ghost passes: seq<Pass>)
      requires Valid()
      modifies control.runs, control.sessions.rows, control.sessions.runtime, `truthful
      ensures Valid() && Passes(old(Durable()), Durable(), passes)
      ensures truthful == (old(truthful) && AllSawTruth(work, passes))
      ensures ok && AllSawFinished(passes, tracked) ==> Advanced(old(control.runs.rows), control.runs.rows, tracked, {})
      ensures ok ==> Covered(old(control.runs.rows), {}, passes)
    {
      hide RunsStored, GoodRows, Backed, Claimed, Accounted, DoneBy, Kept, AllKept, WellStored, Configured, Remaining, Advanced, IsPass,
           SawFinished, SawTruth, AllSawFinished, AllSawTruth, Grown, Nearer, Passes, NeedsPass;
      ghost var before := Durable();
      Stored();
      TrackedAreStored(before, control.Here(), work, truthful, tracked);
      passes := [];
      NothingSaw(work, tracked);
      NoPassYet(before);
      var listed := control.runs.Runs();
      if listed.Failure? { return false, passes; }
      NoneAdvanced(before.rows, tracked);
      var left := listed.value.Keys;
      ok := true;
      while left != {}
        invariant Valid() && Passes(before, Durable(), passes)
        invariant truthful == (old(truthful) && AllSawTruth(work, passes))
        invariant left <= before.rows.Keys
        invariant SoFar(before.rows, control.runs.rows, tracked, left, ok, passes)
        invariant Covered(before.rows, left, passes)
      {
        var name :| name in left;
        var run := listed.value[name].value;
        if (run.state.Terminal() && !ToBeCleaned(run)) || run.state == RunDeleting {
          SkippedIsCovered(before.rows, left, passes, name);
          EndedIsSkipped(before.rows, control.runs.rows, tracked, left, ok, passes, name);
          left := left - {name};
          continue;
        }
        Stored();
        var err, p := Reconcile(name);
        Stored();
        TrackedAreStored(p.after, control.Here(), work, truthful, tracked);
        OneAdvanced(before.rows, tracked, left, ok, passes, p, err.None?);
        OnePassMore(before, passes, p);
        OneMoreTruth(work, passes, p);
        OneMoreCovered(before.rows, left, passes, p);
        passes := passes + [p];
        ok := ok && err.None?;
        left := left - {name};
      }
    }

    /**
     * Reconciles over and over. When every call succeeds and the sessions of active steps have finished whenever they are
     * asked, a tracked run of n steps has ended after n + 1 rounds.
     */
    method Run(rounds: nat) returns (ok: bool, ghost passes: seq<Pass>)
      requires Valid()
      modifies control.runs, control.sessions.rows, control.sessions.runtime, `truthful
      ensures Valid() && Passes(old(Durable()), Durable(), passes)
      ensures truthful == (old(truthful) && AllSawTruth(work, passes))
      ensures tracked <= old(control.runs.rows).Keys && tracked <= control.runs.rows.Keys
      ensures ok && AllSawFinished(passes, tracked) ==>
                forall name | name in tracked && |old(control.runs.rows)[name].value.steps| < rounds ::
                  control.runs.rows[name].value.state.Ended()
    {
      hide RunsStored, GoodRows, Backed, Claimed, Accounted, DoneBy, Kept, AllKept, WellStored, Configured, Remaining, Advanced, Closer, IsPass,
           SawFinished, SawTruth, AllSawFinished, AllSawTruth, Passes;
      TrackedAreStored(Durable(), control.Here(), work, truthful, tracked);
      NoPassYet(Durable());
      NoneAdvanced(control.runs.rows, tracked);
      ok, passes := true, [];
      NothingSaw(work, tracked);
      for i := 0 to rounds
        invariant Valid() && Passes(old(Durable()), Durable(), passes)
        invariant truthful == (old(truthful) && AllSawTruth(work, passes))
        invariant ok && AllSawFinished(passes, tracked) ==> Closer(old(control.runs.rows), control.runs.rows, tracked, i)
      {
        ghost var before := Durable();
        var done, more := ReconcileAll();
        MorePasses(old(Durable()), before, Durable(), passes, more);
        MoreSaw(work, passes, more, tracked);
        if ok && done && AllSawFinished(passes + more, tracked) {
          RoundIsCloser(old(control.runs.rows), before.rows, control.runs.rows, tracked, i);
        }
        ok, passes := ok && done, passes + more;
      }
      TrackedAreStored(Durable(), control.Here(), work, truthful, tracked);
      if ok && AllSawFinished(passes, tracked) { EnoughRounds(old(control.runs.rows), control.runs.rows, tracked, rounds); }
    }

    /** Records that a run is to be canceled. */
    method Cancel(name: string) returns (err: Option<WorkflowControl.RunFailure>)
      requires Valid()
      modifies control.runs
      ensures Valid() && control.runs.rows.Keys == old(control.runs.rows).Keys
      ensures err == None ==> name in control.runs.rows
                              && (control.runs.rows[name].value.cancelRequested || control.runs.rows[name].value.state.Terminal())
    {
      hide RunsStored, GoodRows, Backed, Claimed, Accounted, DoneBy, Kept, AllKept, WellStored, Within, SessionsOfRun, Configured,
           RunChain, SessionsOf, Observing, Truthful, SavedMoves, Grown;
      ghost var before := Durable();
      Stored();
      KeyedRows(before.now);
      WithinReflexive(SessionsOfRun(before, name), name, before.now);
      if name in tracked { TrackedIsAccounted(name); }
      ghost var saved: seq<Move>;
      err, saved := control.Cancel(name);
      Stored();
      SavedLeaves(before, Durable(), name, saved);
      NeighborsKept(before, Durable(), control.Here(), work, truthful, truthful, name, tracked);
      if name in tracked {
        KeptOne(before, control.Here(), work, truthful, tracked, name);
        StoredHeader(control.runs.rows, control.runs.histories, name);
        MovedKept(before, Durable(), control.Here(), work, truthful, truthful, name, Clean(0), saved, before.now);
      }
      KeptWith(Durable(), control.Here(), work, truthful, tracked, name);
    }

    /** Deletes an ended run. When its row is gone nothing is left of its sessions, and no session of a tracked run at all. */
    method Delete(name: string) returns (err: Option<WorkflowControl.RunFailure>)
      requires Valid()
      modifies control.runs, control.sessions.rows, control.sessions.runtime, `tracked
      ensures Valid() && truthful == old(truthful)
      ensures tracked == TrackedAfter(old(tracked), old(Durable()), Durable())
      ensures err == None ==> name !in control.runs.rows
      ensures name in old(control.runs.rows) && name !in control.runs.rows ==>
                control.Vanished(old(control.SessionNames(name))) && (name in old(tracked) ==> control.Unowned(name))
    {
      hide RunsStored, GoodRows, Backed, Claimed, Accounted, DoneBy, Kept, AllKept, WellStored, Within, SessionsOfRun, Configured,
           RunChain, SessionsOf, Observing, Truthful, SavedMoves, Grown, TrackedAfter;
      ghost var before := Durable();
      Stored();
      TrackedAreStored(before, control.Here(), work, truthful, tracked);
      NamesOf(name);
      if name in tracked { TrackedIsAccounted(name); }
      ghost var saved: seq<Move>;
      err, saved := control.Delete(name);
      Stored();
      NeighborsKept(before, Durable(), control.Here(), work, truthful, truthful, name, tracked);
      if name in tracked && name in control.runs.rows {
        KeptOne(before, control.Here(), work, truthful, tracked, name);
        StoredHeader(control.runs.rows, control.runs.histories, name);
        MovedKept(before, Durable(), control.Here(), work, truthful, truthful, name, Clean(0), saved, before.now);
      }
      StoredName(before.rows, before.histories, name);
      StoredName(control.runs.rows, control.runs.histories, name);
      DeletedTracked(tracked, before, Durable(), name);
      if name !in control.runs.rows { tracked := tracked - {name}; }
      assert tracked - {name} == old(tracked) - {name};
      KeptWith(Durable(), control.Here(), work, truthful, tracked, name);
    }

    /** Retries the recorded deletions, as the server does when it starts. */
    method ReconcileDeletions() returns (ok: bool)
      requires Valid()
      modifies control.sessions.rows, control.sessions.runtime
      ensures Valid()
      ensures ok ==> forall s | s in control.sessions.rows.sessions :: control.sessions.rows.sessions[s].deletion == None
    {
      hide RunsStored, GoodRows, Backed, Claimed, Accounted, DoneBy, Kept, AllKept, WellStored, Configured, Retries;
      ghost var before := Durable();
      Stored();
      ghost var trail: seq<RowsState>;
      ok, trail := control.sessions.ReconcileDeletions();
      RetryingKeeps(before, Durable(), control.Here(), work, truthful, tracked, trail);
    }

    // ---- The session interface ----

    /** Starts a session of no run. */
    method CreateSession(definition: Definition, request: StartRequest) returns (err: Option<ErrorKind>)
      requires Valid() && request.workflowRun == "" && Foreign(Durable(), tracked, request.name)
      modifies control.sessions.rows, control.sessions.runtime
      ensures Valid()
    {
      hide RunsStored, GoodRows, Backed, Claimed, Accounted, DoneBy, Kept, AllKept, WellStored, Configured, Within, OthersKept, SessionsOfRun,
           ValidStart;
      ghost var before := Durable();
      Stored();
      NoBlankRun();
      err := control.sessions.Start(definition, request);
      Stored();
      CreatedWithin(request.name, before.now, Durable().now);
      ForeignKeeps(before, Durable(), control.Here(), work, truthful, tracked, request.name, "");
    }

    lemma NoBlankRun()
      requires Valid()
      ensures "" !in tracked
    {
      hide Accounted, DoneBy, Kept, AllKept, RunsStored, GoodRows;
      if "" in tracked { TrackedIsAccounted(""); }
    }

    /** Gives a session of no run another task. */
    method ContinueSession(name: string, prompt: string, timeout: int) returns (r: Result<string, ErrorKind>)
      requires Valid() && Foreign(Durable(), tracked, name)
      modifies control.sessions.rows, control.sessions.runtime
      ensures Valid()
    {
      hide RunsStored, GoodRows, Backed, Claimed, Accounted, DoneBy, Kept, AllKept, WellStored, Configured, Within, OthersKept, SessionsOfRun,
           HistoryGrows;
      ghost var before := Durable();
      Stored();
      NoBlankRun();
      r := control.sessions.Continue(name, prompt, timeout);
      Stored();
      ContinuedWithin(name, before.now, Durable().now);
      ForeignKeeps(before, Durable(), control.Here(), work, truthful, tracked, name, "");
    }

    /** Removes a session of no run, with or without its storage. */
    method DeleteSession(name: string, storage: bool) returns (err: Option<ErrorKind>)
      requires Valid() && Foreign(Durable(), tracked, name)
      modifies control.sessions.rows, control.sessions.runtime
      ensures Valid()
    {
      hide RunsStored, GoodRows, Backed, Claimed, Accounted, DoneBy, Kept, AllKept, WellStored, Configured, Within, Removing, SessionsOfRun;
      ghost var before := Durable();
      Stored();
      NoBlankRun();
      err := control.sessions.Delete(name, storage);
      Stored();
      RemovedWithin({name}, "", name, storage, before.now, Durable().now);
      ForeignKeeps(before, Durable(), control.Here(), work, truthful, tracked, name, "");
    }

    /** Asks any session, of a run or not, for its status or artifacts, or prepares to publish it. */
    method AskSession(name: string)
      requires Valid()
      modifies control.sessions.rows
      ensures Valid()
    {
      hide RunsStored, GoodRows, Backed, Claimed, Accounted, DoneBy, Kept, AllKept, WellStored, Configured, OthersKept, SameLength, NoneCanceled;
      ghost var before := Durable();
      Stored();
      KeyedRows(before.now);
      var question: nat := *;
      if question == 0 {
        var status := control.sessions.Status(name);
      } else if question == 1 {
        var artifacts := control.sessions.Artifacts(name);
      } else {
        var source := control.sessions.PreparePublication(name);
      }
      KeyedRows(Durable().now);
      AskingKeeps(before, Durable(), control.Here(), work, truthful, tracked, name);
    }

    // ---- Any sequence of calls ----

    /**
     * However long the server serves whatever calls, in every state in between no work outlives its run: of all runs that
     * were created with unused names and are still there, those that have ended have no unfinished task.
     */
    method Serve() returns (ghost trail: seq<State>)
      requires Valid()
      modifies this, control.runs, control.sessions.rows, control.sessions.runtime
      ensures Valid() && |trail| > 0 && trail[0] == old(Durable()) && trail[|trail| - 1] == Durable()
      ensures tracked == TrackedAlong(old(tracked), trail)
      ensures NeverOrphans(old(tracked), trail)
    {
      hide RunsStored, GoodRows, Backed, Claimed, Accounted, DoneBy, Kept, AllKept, WellStored, Configured, SessionsOfRun, TrackedAfter, NoOrphans;
      trail := [Durable()];
      assert trail[..1] == trail;
      Stored();
      KeptHaveNoOrphans(Durable(), control.Here(), work, truthful, tracked);
      var calls: nat := *;
      while calls > 0
        invariant Valid() && |trail| > 0 && trail[0] == old(Durable()) && trail[|trail| - 1] == Durable()
        invariant tracked == TrackedAlong(old(tracked), trail)
        invariant NeverOrphans(old(tracked), trail)
        decreases calls
      {
        calls := calls - 1;
        Call();
        Stored();
        KeptHaveNoOrphans(Durable(), control.Here(), work, truthful, tracked);
        OneMoreState(old(tracked), trail, Durable());
        StillNoOrphans(old(tracked), trail, Durable());
        trail := trail + [Durable()];
      }
    }

    /** One arbitrary call; sessions of runs are left to the controller, except for questions about them. */
    method Call()
      requires Valid()
      modifies this, control.runs, control.sessions.rows, control.sessions.runtime
      ensures Valid() && tracked == TrackedAfter(old(tracked), old(Durable()), Durable())
    {
      hide RunsStored, GoodRows, Backed, Claimed, Accounted, DoneBy, Kept, AllKept, WellStored, Configured, SessionsOfRun, OfNoRun, Foreign,
           TrackedAfter, SavedMoves, SeenWithin, Observing, FromPass;
      TrackedAreStored(Durable(), control.Here(), work, truthful, tracked);
      var call: nat := *;
      var name: string := *;
      var storage: bool := *;
      match call {
        case 0 =>
          var request: RunRequest := *;
          var run := Start(request);
        case 1 =>
          var err := Delete(name);
        case 2 =>
          var err, p := Reconcile(name);
          SameTracked(tracked, old(Durable()), Durable());
        case 3 =>
          var err := Cancel(name);
          SameTracked(tracked, old(Durable()), Durable());
        case 4 =>
          var ok := ReconcileDeletions();
          SameTracked(tracked, old(Durable()), Durable());
        case 5 =>
          AskSession(name);
          SameTracked(tracked, old(Durable()), Durable());
        case _ =>
          if OfNoRun(control.runs.rows, name) { CallOnSession(call, name, storage); }
          SameTracked(tracked, old(Durable()), Durable());
      }
    }

    method CallOnSession(call: nat, name: string, storage: bool)
      requires Valid() && OfNoRun(control.runs.rows, name)
      modifies control.sessions.rows, control.sessions.runtime
      ensures Valid()
    {
      hide RunsStored, GoodRows, Backed, Claimed, Accounted, DoneBy, Kept, AllKept, WellStored, Configured, SessionsOfRun, OfNoRun, Foreign;
      Stored();
      OfNoRunIsForeign(Durable(), control.Here(), work, truthful, tracked, name);
      if call == 6 {
        var err := DeleteSession(name, storage);
      } else if call == 7 {
        var prompt: string := *;
        var timeout: int := *;
        var task := ContinueSession(name, prompt, timeout);
      } else {
        var definition: Definition := *;
        var request: StartRequest := *;
        var err := CreateSession(definition, request.(name := name, workflowRun := ""));
      }
    }
  }
  /**
   * One run, served by two servers of the same scope and image whose agents do the same work, ends alike on both,
   * whatever else they served, when they reconciled, how many steps they ran at once, and what failed in between.
   */
  lemma EndsAlike(a: Service, b: Service, name: string)
    requires a.Valid() && b.Valid() && a.work == b.work && a.control.Here() == b.control.Here()
    requires name in a.tracked && a.truthful && name in b.tracked && b.truthful
    requires a.control.runs.snapshots[name] == b.control.runs.snapshots[name]
    requires var s, t := a.control.runs.histories[name], b.control.runs.histories[name];
             s[0].steps == t[0].steps && SameGoal(s[0].header, t[0].header)
    requires var v, w := a.control.runs.rows[name].value, b.control.runs.rows[name].value;
             v.state.Terminal() && !v.cancelRequested && w.state.Terminal() && !w.cancelRequested
    ensures var v, w := a.control.runs.rows[name].value, b.control.runs.rows[name].value;
            && v.steps.Keys == w.steps.Keys
            && (forall n | n in v.steps :: VerdictOf(v.steps[n]) == VerdictOf(w.steps[n]))
            && v.state == w.state
  {
    hide RunsStored, GoodRows, Accounted, DoneBy, WellStored, RunChain;
    a.Stored();
    b.Stored();
    StoredName(a.control.runs.rows, a.control.runs.histories, name);
    StoredName(b.control.runs.rows, b.control.runs.histories, name);
    KeptOne(a.Durable(), a.control.Here(), a.work, true, a.tracked, name);
    KeptOne(b.Durable(), b.control.Here(), b.work, true, b.tracked, name);
    SameWorkSameEnd(a.work, a.control.runs.snapshots[name], a.control.Here(), a.control.runs.histories[name], b.control.runs.histories[name]);
  }
}
