/** A run never gets stuck, and ends within a bounded number of reconciles. */
module Liveness {
  import opened Prelude
  import opened Names
  import opened Graphs
  import opened WorkflowRun
  import opened Scheduling
  import opened RunMoves
  import opened RunHistory

  ghost function PendingSteps(steps: Steps): set<string> {
    set n | n in steps && steps[n].state.Pending?
  }

  /** A pending step of least rank: every dependency has left the pending state. */
  lemma {:induction false} FirstPending(header: Header, steps: Steps, rank: Rank, n: string) returns (first: string)
    requires Planned(header, steps, rank) && n in steps && steps[n].state.Pending?
    ensures first in steps && steps[first].state.Pending?
    ensures forall d | d in steps[first].plan.after :: d in steps && !steps[d].state.Pending?
    decreases rank[n]
  {
    assert GraphOf(steps)[n] == steps[n].plan.after;
    if d :| d in steps[n].plan.after && steps[d].state.Pending? {
      first := FirstPending(header, steps, rank, d);
    } else {
      first := n;
    }
  }

  lemma ReadyStarts(steps: Steps, names: seq<string>, max: int, n: string)
    requires Ready(steps, n) && n in names && FreeSlots(steps, max) > 0
    ensures Started(steps, names, max) != []
  {
    assert n in ReadyNames(steps, names);
  }

  lemma FatalIsSkipped(steps: Steps, names: seq<string>, n: string)
    requires forall m | m in names :: m in steps
    requires n in names && steps[n].state.Pending? && HasFatal(steps, steps[n])
    ensures n in SkippedBy(steps, names)
  {
    if names[|names| - 1] != n {
      FatalIsSkipped(steps, names[..|names| - 1], n);
    }
  }

  /** A pending step whose dependencies have all ended is skipped, or keeps the pass from starting nothing. */
  lemma SettledDependencies(steps: Steps, names: seq<string>, max: int, n: string) returns (m: string)
    requires forall k | k in names :: k in steps
    requires n in names && steps[n].state.Pending? && FreeSlots(steps, max) > 0
    requires forall d | d in steps[n].plan.after :: d in steps && steps[d].state.Terminal()
    ensures m in steps && steps[m].state.Pending?
    ensures m in SkippedBy(steps, names) || m in Started(steps, names, max)
  {
    if HasFatal(steps, steps[n]) {
      FatalIsSkipped(steps, names, n);
      m := n;
    } else {
      assert AllCompleted(steps, steps[n]);
      ReadyStarts(steps, names, max, n);
      m := Started(steps, names, max)[0];
      StartedArePending(steps, names, max, m);
    }
  }

  lemma PassOnlyTakes(steps: Steps, max: int, at: int)
    ensures PendingSteps(Schedule(steps, max, at)) <= PendingSteps(steps)
  {
    ScheduleIsGreedy(steps, max, at);
    forall n | n in PendingSteps(Schedule(steps, max, at)) ensures n in PendingSteps(steps) {
      StartedArePending(steps, Sorted(steps.Keys), max, n);
    }
  }

  lemma NoActive(steps: Steps)
    requires ActiveCount(steps) == 0
    ensures forall n | n in steps :: !steps[n].state.Active()
  {
    var active := set n | n in steps && steps[n].state.Active();
    assert active == {};
    forall n | n in steps ensures !steps[n].state.Active() {
      assert n !in active;
    }
  }

  /** With no step active and some step pending, a scheduling pass starts or skips at least one step. */
  lemma NoDeadlock(header: Header, steps: Steps, rank: Rank, at: int)
    requires Planned(header, steps, rank)
    requires ActiveCount(steps) == 0 && PendingSteps(steps) != {}
    ensures PendingSteps(Schedule(steps, header.maxParallelism, at)) < PendingSteps(steps)
  {
    var max, names := header.maxParallelism, Sorted(steps.Keys);
    var p :| p in PendingSteps(steps);
    var n := FirstPending(header, steps, rank, p);
    NoActive(steps);
    var m := SettledDependencies(steps, names, max, n);
    PassOnlyTakes(steps, max, at);
    ScheduleIsGreedy(steps, max, at);
    assert Schedule(steps, max, at)[m] == PassResult(steps, names, max, at, m);
    assert m in PendingSteps(steps) && m !in PendingSteps(Schedule(steps, max, at));
  }

  /** A reconcile whose calls succeed and that finds every running session finished. */
  ghost predicate Prompt(run: Run, m: Move) {
    && m.Reconcile?
    && forall n | n in run.steps && StartAll(run.steps)[n].state.Running? ::
         n in m.observed && !m.observed[n].reply.Unfinished?
  }

  /** Such a reconcile, with or without the cleanup that may follow it; an ended run stays as it is. */
  ghost predicate PromptReconcile(a: Run, b: Run) {
    if a.state.Terminal() then b == a
    else exists m, at :: Enabled(a, m) && Prompt(a, m) && (b == Apply(a, m) || b == Apply(Apply(a, m), Clean(at)))
  }

  lemma ObserveFinishes(steps: Steps, run: Run, m: Move)
    requires Prompt(run, m) && steps == ObserveAll(StartAll(run.steps), m.observed)
    ensures ActiveCount(steps) == 0
    ensures PendingSteps(steps) == PendingSteps(run.steps)
  {
    var s := StartAll(run.steps);
    forall n | n in s && s[n].state.Running? ensures steps[n].state.Terminal() {
      var o := m.observed[n];
      if o.reply.Reported? { ReportedVerdict(s[n], o.reply.artifacts, o.at, ProducesChange(s, n)); }
    }
    assert (set n | n in steps && steps[n].state.Active()) == {};
  }

  /** Each prompt reconcile takes a step out of the pending state, or ends the run when none is pending. */
  lemma PromptMoveAdvances(run: Run, m: Move, rank: Rank)
    requires Planned(run.header, run.steps, rank) && Sound(run) && Enabled(run, m) && Prompt(run, m)
    ensures var next := Apply(run, m);
            if PendingSteps(run.steps) == {} then next.state.Terminal()
            else PendingSteps(next.steps) < PendingSteps(run.steps)
  {
    var s2 := ObserveAll(StartAll(run.steps), m.observed);
    ObserveFinishes(s2, run, m);
    PlanOfObserved(run, m, rank);
    if PendingSteps(run.steps) == {} {
      NothingToSchedule(s2, run.header.maxParallelism, m.scheduledAt);
      EndedStateMeansTerminalSteps(Apply(run, m).steps);
    } else {
      NoDeadlock(run.header, s2, rank, m.scheduledAt);
    }
  }

  lemma PlanOfObserved(run: Run, m: Move, rank: Rank)
    requires Planned(run.header, run.steps, rank) && Sound(run) && m.Reconcile?
    ensures Planned(run.header, ObserveAll(StartAll(run.steps), m.observed), rank)
  {
    var s1 := StartAll(run.steps);
    StartKeeps(run.steps);
    LegalKeeps(run.steps, s1);
    ObserveKeeps(s1, m.observed);
    LegalSettles(s1, ObserveAll(s1, m.observed));
    PlanKept(run.header, run.steps, s1, rank);
    PlanKept(run.header, s1, ObserveAll(s1, m.observed), rank);
  }

  lemma NothingToSchedule(steps: Steps, max: int, at: int)
    requires ActiveCount(steps) == 0 && PendingSteps(steps) == {}
    ensures forall n | n in Schedule(steps, max, at) :: Schedule(steps, max, at)[n].state.Terminal()
  {
    ScheduleIsGreedy(steps, max, at);
    NoActive(steps);
    forall n | n in steps ensures Schedule(steps, max, at)[n].state.Terminal() {
      assert n !in PendingSteps(steps);
      StartedArePending(steps, Sorted(steps.Keys), max, n);
    }
  }

  ghost predicate Running(run: Run, rank: Rank) {
    Planned(run.header, run.steps, rank) && Sound(run) && !run.cancelRequested && !run.state.RunDeleting?
  }

  lemma CleanChangesNoState(run: Run, at: int)
    ensures PendingSteps(Apply(run, Clean(at)).steps) == PendingSteps(run.steps)
  {}

  lemma PromptReconcileAdvances(a: Run, b: Run, rank: Rank)
    requires Running(a, rank) && PromptReconcile(a, b)
    ensures Running(b, rank)
    ensures b.state.Terminal() || (PendingSteps(a.steps) != {} && PendingSteps(b.steps) < PendingSteps(a.steps))
  {
    if !a.state.Terminal() {
      var m, at :| Enabled(a, m) && Prompt(a, m) && (b == Apply(a, m) || b == Apply(Apply(a, m), Clean(at)));
      var mid := Apply(a, m);
      PromptMoveAdvances(a, m, rank);
      PromptMoveKeeps(a, m, rank);
      CleanAfter(mid, at, rank);
    }
  }

  lemma PromptMoveKeeps(a: Run, m: Move, rank: Rank)
    requires Running(a, rank) && Enabled(a, m) && m.Reconcile?
    ensures Running(Apply(a, m), rank)
  {
    MoveKeeps(a, m, rank);
    EndedStateMeansTerminalSteps(Apply(a, m).steps);
  }

  lemma CleanAfter(run: Run, at: int, rank: Rank)
    requires Running(run, rank)
    ensures var b := Apply(run, Clean(at));
            Running(b, rank) && b.state == run.state && PendingSteps(b.steps) == PendingSteps(run.steps)
  {
    MoveKeeps(run, Clean(at), rank);
    CleanChangesNoState(run, at);
  }

  lemma {:induction false} PendingShrinks(runs: seq<Run>, rank: Rank, i: nat)
    requires i < |runs| && Fresh(runs[0]) && Planned(runs[0].header, runs[0].steps, rank)
    requires forall k | 0 <= k < |runs| - 1 :: PromptReconcile(runs[k], runs[k + 1])
    ensures var run := runs[i];
            && Running(run, rank)
            && (run.state.Terminal() || |PendingSteps(run.steps)| + i <= |runs[0].steps|)
  {
    if i == 0 {
      FreshIsSound(runs[0]);
      assert PendingSteps(runs[0].steps) == runs[0].steps.Keys;
    } else {
      PendingShrinks(runs, rank, i - 1);
      PromptReconcileAdvances(runs[i - 1], runs[i], rank);
      if !runs[i].state.Terminal() {
        StrictSubsetSize(PendingSteps(runs[i].steps), PendingSteps(runs[i - 1].steps));
      }
    }
  }

  lemma StrictSubsetSize(a: set<string>, b: set<string>)
    requires a < b
    ensures |a| < |b|
  {
    var x :| x in b && x !in a;
    SubsetSize(a, b - {x});
  }

  /** A run of n steps has ended after n + 1 prompt reconciles. */
  lemma EndsWithinBound(runs: seq<Run>, rank: Rank)
    requires |runs| > 0 && |runs| > |runs[0].steps| + 1 && Fresh(runs[0]) && Planned(runs[0].header, runs[0].steps, rank)
    requires forall k | 0 <= k < |runs| - 1 :: PromptReconcile(runs[k], runs[k + 1])
    ensures runs[|runs[0].steps| + 1].state.Terminal()
  {
    var n := |runs[0].steps|;
    PendingShrinks(runs, rank, n);
    PromptReconcileAdvances(runs[n], runs[n + 1], rank);
  }
}
