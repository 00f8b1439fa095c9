/** The copy of a run that one reconcile works on: the loops that schedule its steps and derive its state. */
module WorkingRuns {
  import opened Prelude
  import opened Names
  import opened WorkflowRun
  import opened Scheduling
  import opened OptimisticRows

  /** What a scheduling pass learns about a step's dependencies. */
  datatype Readiness = Readiness(ready: bool, failed: bool)

  class WorkingRun {
    const header: Header
    var version: nat
    var state: RunState
    var cancelRequested: bool
    var steps: Steps
    var updatedAt: int

    function Contents(): Run
      reads this
    {
      Run(header, state, cancelRequested, steps, updatedAt)
    }

    constructor (row: Row<Run>)
      ensures Contents() == row.value && version == row.version
    {
      header := row.value.header;
      version := row.version;
      state, cancelRequested, steps, updatedAt := row.value.state, row.value.cancelRequested, row.value.steps, row.value.updatedAt;
    }

    /** Counts the active steps, in whatever order the map yields them. */
    method CountActive() returns (active: nat)
      ensures active == ActiveCount(steps)
    {
      var unread := steps.Keys;
      active := 0;
      ghost var seen: set<string> := {};
      while unread != {}
        invariant unread <= steps.Keys
        invariant seen == set n | n in steps && n !in unread && steps[n].state.Active()
        invariant active == |seen|
      {
        var name :| name in unread;
        unread := unread - {name};
        if steps[name].state.Active() {
          active := active + 1;
          seen := seen + {name};
        }
      }
      assert seen == set n | n in steps && steps[n].state.Active();
    }

    method Dependencies(step: Step) returns (r: Readiness)
      ensures r.failed <==> HasFatal(steps, step)
      ensures !r.failed ==> (r.ready <==> AllCompleted(steps, step))
    {
      var ready, failed := true, false;
      for i := 0 to |step.plan.after|
        invariant failed <==> exists j :: 0 <= j < i && step.plan.after[j] in steps && steps[step.plan.after[j]].state.Fatal()
        invariant !failed ==> (ready <==> forall j | 0 <= j < i :: step.plan.after[j] in steps && steps[step.plan.after[j]].state.Completed?)
      {
        var dependency := step.plan.after[i];
        if dependency !in steps {
          ready := false;
        } else {
          match steps[dependency].state
          case Completed =>
          case Blocked | Failed | Canceled | Skipped => failed := true;
          case _ => ready := false;
        }
      }
      r := Readiness(ready, failed);
    }

    /** Considers one step: skips it, starts it, or leaves it. */
    method ScheduleStep(name: string, active: nat, at: int) returns (now: nat, changed: bool)
      requires name in steps
      modifies `steps
      ensures Pass(steps, now) == ScheduleOne(Pass(old(steps), active), name, header.maxParallelism, at)
      ensures if changed then steps != old(steps) && MovedOn(old(steps), steps, name) else steps == old(steps)
    {
      now, changed := active, false;
      var step := steps[name];
      if !step.state.Pending? { return; }
      var dependencies := Dependencies(step);
      if dependencies.failed {
        steps := steps[name := step.(state := Skipped, finishedAt := Some(at))];
        changed := true;
        return;
      }
      if !dependencies.ready || active >= header.maxParallelism { return; }
      steps := steps[name := step.(state := Starting, startedAt := Some(at))];
      now, changed := active + 1, true;
    }

    /** One pass in name order: skips doomed steps and starts ready ones while slots are free. */
    method ScheduleReadySteps(at: int) returns (changed: bool)
      modifies `steps
      ensures steps == Schedule(old(steps), header.maxParallelism, at)
      ensures changed <==> steps != old(steps)
    {
      hide ScheduleOne, Ascending;
      var active: nat := CountActive();
      var names := Sorted(steps.Keys);
      changed := false;
      for i := 0 to |names|
        invariant steps.Keys == old(steps).Keys
        invariant PassOver(old(steps), names[..i], header.maxParallelism, at) == Pass(steps, active)
        invariant if changed then LeftPending(old(steps), steps) else steps == old(steps)
      {
        ghost var before := steps;
        assert names[..i + 1][..i] == names[..i];
        var moved: bool;
        active, moved := ScheduleStep(names[i], active, at);
        if moved {
          StaysLeft(old(steps), before, steps, names[i], changed);
          changed := true;
        }
      }
      assert names[..|names|] == names;
    }

    /** Derives the run state from the step states, in whatever order the map yields them. */
    method DeriveRunState()
      modifies `state
      ensures state == RunStateOf(steps)
    {
      var derived := RunCompleted;
      var unread := steps.Keys;
      while unread != {}
        invariant unread <= steps.Keys
        invariant !derived.RunRunning?
        invariant derived == RunStateOf(map n | n in steps && n !in unread :: steps[n])
      {
        var name :| name in unread;
        ghost var read := map n | n in steps && n !in unread :: steps[n];
        unread := unread - {name};
        StateOfOneMore(read, name, steps[name]);
        assert (map n | n in steps && n !in unread :: steps[n]) == read[name := steps[name]];
        match steps[name].state
        case Pending | Starting | Running =>
          assert Has(steps, steps[name].state);
          state := RunRunning;
          return;
        case Failed => derived := RunFailed;
        case Blocked => if derived != RunFailed { derived := RunBlocked; }
        case Canceled => if derived != RunFailed && derived != RunBlocked { derived := RunCanceled; }
        case _ =>
      }
      assert (map n | n in steps && n !in unread :: steps[n]) == steps;
      state := derived;
    }
  }

  ghost predicate LeftPending(a: Steps, b: Steps) {
    exists n :: n in a && n in b && a[n].state.Pending? && !b[n].state.Pending?
  }

  ghost predicate MovedOn(a: Steps, b: Steps, name: string) {
    && name in a && a[name].state.Pending?
    && b.Keys == a.Keys && !b[name].state.Pending?
    && forall n | n in a && n != name :: b[n] == a[n]
  }

  lemma StaysLeft(a: Steps, b: Steps, c: Steps, name: string, changed: bool)
    requires b.Keys == a.Keys && MovedOn(b, c, name)
    requires if changed then LeftPending(a, b) else b == a
    ensures LeftPending(a, c)
  {
    if changed {
      var n :| n in a && n in b && a[n].state.Pending? && !b[n].state.Pending?;
      assert n != name && c[n] == b[n];
    } else {
      assert name in a && name in c;
    }
  }

  /** How one more step changes the derived state. */
  lemma StateOfOneMore(steps: Steps, name: string, step: Step)
    requires name !in steps && !RunStateOf(steps).RunRunning?
    ensures var before, after := RunStateOf(steps), RunStateOf(steps[name := step]);
            after == match step.state
              case Pending | Starting | Running => RunRunning
              case Failed => RunFailed
              case Blocked => if before.RunFailed? then before else RunBlocked
              case Canceled => if before.RunFailed? || before.RunBlocked? then before else RunCanceled
              case _ => before
  {
    var more := steps[name := step];
    forall state ensures Has(more, state) <==> Has(steps, state) || step.state == state {
      if step.state == state { assert more[name].state == state; }
      if Has(steps, state) {
        var n :| n in steps && steps[n].state == state;
        assert more[n].state == state;
      }
    }
  }
}
