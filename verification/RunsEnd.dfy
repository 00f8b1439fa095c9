/** How many passes a durable run is away from its end. */
module RunsEnd {
  import opened Prelude
  import opened Graphs
  import opened WorkflowRun
  import opened RunMoves
  import opened RunHistory
  import opened WorkflowStore
  import opened RunSaving
  import opened Liveness

  /** A run that has not ended and is not to be canceled has work left. */
  ghost predicate WorkLeft(run: Run) {
    !run.state.Ended() && !run.cancelRequested ==> exists n :: n in run.steps && !run.steps[n].state.Terminal()
  }

  lemma MoveLeavesWork(run: Run, m: Move)
    requires WorkLeft(run) && Enabled(run, m)
    ensures WorkLeft(Apply(run, m))
  {
    hide RunStateOf, ReconcileSteps;
    match m {
      case Reconcile(_, _, _) =>
        EndedStateMeansTerminalSteps(Apply(run, m).steps);
        RunningOrEnded(Apply(run, m).steps);
      case Clean(at) => CleanLeavesWork(run, at);
      case _ =>
    }
  }

  lemma RunningOrEnded(steps: Steps)
    ensures RunStateOf(steps) == RunRunning || RunStateOf(steps).Ended()
  {}

  lemma CleanLeavesWork(run: Run, at: int)
    requires WorkLeft(run)
    ensures WorkLeft(Apply(run, Clean(at)))
  {
    if !run.state.Ended() && !run.cancelRequested {
      var n :| n in run.steps && !run.steps[n].state.Terminal();
      assert n in Apply(run, Clean(at)).steps && !Apply(run, Clean(at)).steps[n].state.Terminal();
    }
  }

  lemma {:induction false} ChainLeavesWork(name: string, history: seq<Run>, i: nat)
    requires RunChain(name, history) && i < |history|
    ensures WorkLeft(history[i])
  {
    hide Enabled, Apply, WellPlanned, NamedFor;
    if i == 0 {
      assert history[0].steps.Keys != {};
      var n :| n in history[0].steps;
      assert !history[0].steps[n].state.Terminal();
    } else {
      ChainLeavesWork(name, history, i - 1);
      assert Moves(history[i - 1], history[i]);
      var m :| Enabled(history[i - 1], m) && history[i] == Apply(history[i - 1], m);
      MoveLeavesWork(history[i - 1], m);
    }
  }

  /** The number of passes after which a run has ended, when every call succeeds and its sessions have finished. */
  ghost function Remaining(run: Run): nat {
    if run.state.Ended() then 0 else if run.cancelRequested then 1 else |PendingSteps(run.steps)| + 1
  }

  lemma AtMostStepsRemain(run: Run)
    ensures Remaining(run) <= |run.steps| + 1
  {
    assert PendingSteps(run.steps) <= run.steps.Keys;
    SubsetSize(PendingSteps(run.steps), run.steps.Keys);
  }

  /** Every such pass takes a run that has not ended nearer to its end. */
  lemma OutcomeAdvances(a: Run, m: Move, b: Run, rank: Rank)
    requires Planned(a.header, a.steps, rank) && Sound(a) && WorkLeft(a) && ReconcileOutcome(a, m, b)
    requires !a.state.Ended() && !a.cancelRequested ==> Enabled(a, m) && Prompt(a, m)
    ensures Remaining(b) < Remaining(a) || Remaining(b) == Remaining(a) == 0
  {
    hide Planned, Sound, Prompt, Enabled, Apply, PendingSteps, ReconcileSteps;
    if a.state.Ended() {
      if a.state.Terminal() { CleanKeepsState(a, b.updatedAt); }
    } else if a.cancelRequested {
      CancelEndsRun(a, b.updatedAt);
    } else {
      PassAdvances(a, m, b, rank);
    }
  }

  lemma CleanKeepsState(run: Run, at: int)
    ensures Apply(run, Clean(at)).state == run.state
  {}

  lemma CancelEndsRun(run: Run, at: int)
    ensures Apply(run, CancelAll(at)).state.Ended()
  {}

  lemma PassAdvances(a: Run, m: Move, b: Run, rank: Rank)
    requires Planned(a.header, a.steps, rank) && Sound(a) && WorkLeft(a) && PassOutcome(a, m, b)
    requires !a.state.Ended() && !a.cancelRequested && Enabled(a, m) && Prompt(a, m)
    ensures Remaining(b) < Remaining(a)
  {
    hide Planned, Sound, Prompt, Enabled, PendingSteps, ReconcileSteps, RunStateOf;
    PromptMoveAdvances(a, m, rank);
    if b == a && ReconcileSteps(a, m.observed, m.scheduledAt) == a.steps {
      EndedStateMeansTerminalSteps(a.steps);
    } else {
      var mid := Apply(a, m);
      CleanChangesNoState(mid, b.updatedAt);
      if PendingSteps(a.steps) != {} { StrictSubsetSize(PendingSteps(mid.steps), PendingSteps(a.steps)); }
    }
  }
}
