/** Whole histories of a durable run under any interleaving of controllers and crashes. */
module RunHistory {
  import opened Prelude
  import opened SessionTypes
  import opened Graphs
  import opened WorkflowRun
  import opened Scheduling
  import opened RunMoves
  import opened OptimisticRows

  /** A run as its creation leaves it. */
  ghost predicate Fresh(run: Run) {
    && run.state == RunPending && !run.cancelRequested
    && forall n | n in run.steps ::
         run.steps[n].state == Pending && run.steps[n].report == Report("", "", "", None) && !run.steps[n].cleaned
  }

  lemma FreshIsSound(run: Run)
    requires Fresh(run) && run.header.maxParallelism >= 0
    ensures Sound(run)
  {
    assert (set n | n in run.steps && run.steps[n].state.Active()) == {};
  }

  /** Some enabled move leads from a to b. */
  ghost predicate Moves(a: Run, b: Run) {
    exists m :: Enabled(a, m) && b == Apply(a, m)
  }

  lemma MovesKeep(a: Run, b: Run, rank: Rank)
    requires Planned(a.header, a.steps, rank) && Sound(a) && Moves(a, b)
    ensures b.header == a.header && Planned(b.header, b.steps, rank) && Sound(b) && Settled(a.steps, b.steps)
  {
    var m :| Enabled(a, m) && b == Apply(a, m);
    MoveKeeps(a, m, rank);
  }

  /** Every durable run in every history is sound, whatever the controllers and crashes. */
  lemma {:induction false} EveryRunIsSound(trace: seq<Table<Run>>, rank: Rank, i: nat)
    requires Execution(Moves, trace) && i < |trace|
    requires Fresh(trace[0].row.value) && Planned(trace[0].row.value.header, trace[0].row.value.steps, rank)
    ensures var run := trace[i].row.value;
            run.header == trace[0].row.value.header && Planned(run.header, run.steps, rank) && Sound(run)
  {
    if i == 0 {
      FreshIsSound(trace[0].row.value);
    } else {
      EveryRunIsSound(trace, rank, i - 1);
      VersionsLinearize(Moves, trace, i - 1);
      if trace[i].row != trace[i - 1].row {
        MovesKeep(trace[i - 1].row.value, trace[i].row.value, rank);
      }
    }
  }

  /** A terminal step's state and result never change again in any history. */
  lemma {:induction false} TerminalStepsNeverChange(trace: seq<Table<Run>>, rank: Rank, i: nat, j: nat)
    requires Execution(Moves, trace) && i <= j < |trace|
    requires Fresh(trace[0].row.value) && Planned(trace[0].row.value.header, trace[0].row.value.steps, rank)
    ensures Settled(trace[i].row.value.steps, trace[j].row.value.steps)
    decreases j
  {
    hide Sound, Planned, Moves, Fresh;
    if i < j {
      TerminalStepsNeverChange(trace, rank, i, j - 1);
      EveryRunIsSound(trace, rank, j - 1);
      VersionsLinearize(Moves, trace, j - 1);
      if trace[j].row != trace[j - 1].row {
        MovesKeep(trace[j - 1].row.value, trace[j].row.value, rank);
        SettledTransitive(trace[i].row.value.steps, trace[j - 1].row.value.steps, trace[j].row.value.steps);
      }
    }
  }

  /** In every history a step that has begun would be dispatched with the same request at any later time. */
  lemma {:induction false} RequestsNeverChange(trace: seq<Table<Run>>, rank: Rank, i: nat, j: nat, n: string)
    requires Execution(Moves, trace) && i <= j < |trace|
    requires Fresh(trace[0].row.value) && Planned(trace[0].row.value.header, trace[0].row.value.steps, rank)
    requires n in trace[i].row.value.steps && trace[i].row.value.steps[n].state.Begun()
    ensures var a, b := trace[i].row.value, trace[j].row.value;
            && n in b.steps
            && HandoffReady(a.steps, a.steps[n]) && HandoffReady(b.steps, b.steps[n])
            && Request(b.header, b.steps, b.steps[n]) == Request(a.header, a.steps, a.steps[n])
  {
    EveryRunIsSound(trace, rank, i);
    EveryRunIsSound(trace, rank, j);
    TerminalStepsNeverChange(trace, rank, i, j);
    HandoffNeverFails(trace[i].row.value, rank, n);
    SettledRequest(trace[i].row.value.header, trace[i].row.value.steps, trace[j].row.value.steps, n);
  }
}
