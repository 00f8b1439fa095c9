/** The changes a controller may save to a durable run, and what every one of them keeps. */
module RunMoves {
  import opened Prelude
  import opened SessionTypes
  import opened Names
  import opened Graphs
  import opened WorkflowRun
  import opened Scheduling

  /** One saved change: a reconcile pass, a cancel request, a completed cancellation, a cleanup, or a deletion. */
  datatype Move =
    | Reconcile(observed: map<string, Observation>, scheduledAt: int, savedAt: int)
    | RequestCancel(at: int)
    | CancelAll(at: int)
    | Clean(at: int)
    | BeginDelete(at: int)

  function ReconcileSteps(run: Run, observed: map<string, Observation>, at: int): Steps {
    Schedule(ObserveAll(StartAll(run.steps), observed), run.header.maxParallelism, at)
  }

  predicate Enabled(run: Run, m: Move) {
    match m
    case Reconcile(_, _, _) => !run.state.Ended() && !run.cancelRequested
    case RequestCancel(_) => !run.state.Terminal()
    case CancelAll(_) => !run.state.Ended() && run.cancelRequested
    case Clean(_) => run.state.Terminal() || (!run.state.Ended() && !run.cancelRequested)
    case BeginDelete(_) => run.state.Terminal()
  }

  function Apply(run: Run, m: Move): Run {
    match m
    case Reconcile(observed, at, saved) =>
      var steps := ReconcileSteps(run, observed, at);
      run.(steps := steps, state := RunStateOf(steps), updatedAt := saved)
    case RequestCancel(at) => run.(cancelRequested := true, updatedAt := at)
    case CancelAll(at) =>
      run.(steps := map n | n in run.steps :: CancelStep(run.steps[n], at), state := RunCanceled, updatedAt := at)
    case Clean(at) => run.(steps := map n | n in run.steps :: CleanStep(run.steps[n]), updatedAt := at)
    case BeginDelete(at) => run.(state := RunDeleting, updatedAt := at)
  }

  /** What becomes of a step that has not ended when its run is canceled: nothing but its state and its end. */
  predicate EndedAsCanceled(s: Step, t: Step, at: int) {
    t.state.Canceled? && t.finishedAt == Some(at) && t == s.(state := t.state, finishedAt := t.finishedAt)
  }

  /** Outside a pass a move changes what its name says, and nothing else. */
  lemma MoveExactly(run: Run, m: Move)
    requires !m.Reconcile?
    ensures var next := Apply(run, m);
            && next.header == run.header && next.updatedAt == m.at && next.steps.Keys == run.steps.Keys
            && next.cancelRequested == (run.cancelRequested || m.RequestCancel?)
            && next.state == (match m case CancelAll(_) => RunCanceled case BeginDelete(_) => RunDeleting case _ => run.state)
            && forall n | n in run.steps ::
                 var s, t := run.steps[n], next.steps[n];
                 if m.CancelAll? && (s.state.Pending? || s.state.Starting? || s.state.Running?) then EndedAsCanceled(s, t, m.at)
                 else if m.Clean? && s.state.Completed? && !s.plan.publishable then t.cleaned && t == s.(cleaned := t.cleaned)
                 else t == s
  {}

  /** What dispatching and then hearing of a step makes of it. */
  ghost predicate Heard(s: Step, t: Step, observed: map<string, Observation>, n: string, produces: bool) {
    && t.plan == s.plan && t.cleaned == s.cleaned
    && (s.state.Terminal() || s.state.Pending? ==> t == s)
    && (s.state.Active() && (n !in observed || observed[n].reply.Unfinished?) ==> t.state.Running? && t == s.(state := t.state))
    && (s.state.Active() && n in observed && observed[n].reply.Stopped? ==>
          && t.state.Failed? && t.finishedAt == Some(observed[n].at) && t.report.summary == "agent session failed"
          && t == s.(state := t.state, finishedAt := t.finishedAt, report := s.report.(summary := t.report.summary)))
    && (s.state.Active() && n in observed && observed[n].reply.Reported? ==>
          t == ObserveStep(s.(state := Running), observed[n], produces) && t.state.Terminal())
  }

  /** What scheduling makes of a step: pending ones stay, start, or are skipped. */
  ghost predicate Placed(s: Step, t: Step, at: int) {
    || t == s
    || (s.state.Pending? && t.state.Starting? && t.startedAt == Some(at) && t == s.(state := t.state, startedAt := t.startedAt))
    || (s.state.Pending? && t.state.Skipped? && t.finishedAt == Some(at) && t == s.(state := t.state, finishedAt := t.finishedAt))
  }

  lemma HeardExactly(steps: Steps, observed: map<string, Observation>, n: string)
    requires n in steps
    ensures var heard := ObserveAll(StartAll(steps), observed);
            heard.Keys == steps.Keys && Heard(steps[n], heard[n], observed, n, ProducesChange(steps, n))
  {
    hide ObserveStep, ProducesChange;
    var started := StartAll(steps);
    assert SameShape(steps, started);
    ShapeKeepsGraph(steps, started);
    if started[n].state.Running? && n in observed {
      HeardOne(steps[n], started[n], observed, n, ProducesChange(started, n));
    }
  }

  lemma HeardOne(s: Step, started: Step, observed: map<string, Observation>, n: string, produces: bool)
    requires s.state.Active() && started == s.(state := Running) && n in observed
    ensures Heard(s, ObserveStep(started, observed[n], produces), observed, n, produces)
  {
    hide ApplyStepArtifacts;
    if observed[n].reply.Reported? {
      ReportedVerdict(started, observed[n].reply.artifacts, observed[n].at, produces);
      ReportedResult(started, observed[n].reply.artifacts, observed[n].at, produces);
    }
  }

  lemma PlacedExactly(steps: Steps, max: int, at: int, n: string)
    requires n in steps
    ensures Schedule(steps, max, at).Keys == steps.Keys && Placed(steps[n], Schedule(steps, max, at)[n], at)
  {
    hide SkippedBy, Started, HasFatal, AllCompleted;
    ScheduleIsGreedy(steps, max, at);
    StartedArePending(steps, Sorted(steps.Keys), max, n);
  }

  /** What a pass makes of one step: terminal ones stay, active ones were dispatched and then heard of, pending ones start or are skipped. */
  lemma PassExactly(run: Run, observed: map<string, Observation>, at: int, n: string)
    requires n in run.steps
    ensures var steps := ReconcileSteps(run, observed, at);
            && steps.Keys == run.steps.Keys
            && if run.steps[n].state.Pending? then Placed(run.steps[n], steps[n], at)
               else Heard(run.steps[n], steps[n], observed, n, ProducesChange(run.steps, n))
  {
    hide ObserveStep, Schedule, StartAll, ObserveAll, ProducesChange;
    HeardExactly(run.steps, observed, n);
    PlacedExactly(ObserveAll(StartAll(run.steps), observed), run.header.maxParallelism, at, n);
  }

  // ---- What a valid definition gives a run ----

  /** A ranked graph, direct handoffs from steps that are not publishable, and room for one step. */
  ghost predicate Planned(header: Header, steps: Steps, rank: Rank) {
    && Ranks(rank, GraphOf(steps))
    && header.maxParallelism >= 1
    && "" !in steps
    && (forall n | n in steps :: steps[n].plan.name == n)
    && (forall n | n in steps && steps[n].plan.changeFrom != "" ::
          && steps[n].plan.changeFrom in steps[n].plan.after && steps[n].plan.changeFrom in steps
          && !steps[steps[n].plan.changeFrom].plan.publishable)
  }

  /** What every durable run keeps. */
  ghost predicate Sound(run: Run) {
    && Sequenced(run.steps)
    && Recorded(run.steps)
    && ActiveCount(run.steps) <= run.header.maxParallelism
    && (run.state.Ended() ==> forall n | n in run.steps :: run.steps[n].state.Terminal())
    && (!run.cancelRequested || !run.state.Ended() ==> forall n | n in run.steps :: !run.steps[n].state.Canceled?)
    && (run.state.Terminal() && !run.cancelRequested ==> run.state == RunStateOf(run.steps))
  }

  /** A step that was ever dispatched has only completed dependencies; a skipped one has one that did not complete. */
  ghost predicate Sequenced(steps: Steps) {
    && (forall n | n in steps && steps[n].state.Begun() :: AllCompleted(steps, steps[n]))
    && (forall n | n in steps && steps[n].state.Skipped? :: HasFatal(steps, steps[n]))
  }

  /** A completed step holds the result its dependents read, and only completed steps are cleaned up. */
  ghost predicate Recorded(steps: Steps) {
    && (forall n | n in steps && steps[n].state.Completed? ::
          && (!steps[n].plan.publishable ==> steps[n].report.output != "")
          && (ProducesChange(steps, n) ==> steps[n].report.change.Some?))
    && (forall n | n in steps && steps[n].cleaned :: steps[n].state.Completed? && !steps[n].plan.publishable)
  }

  /** A step that has reached a terminal state keeps its state and its whole result. */
  ghost predicate Settled(a: Steps, b: Steps) {
    && SameShape(a, b)
    && forall n | n in a && a[n].state.Terminal() :: b[n] == a[n] || b[n] == a[n].(cleaned := true)
  }

  // ---- One legal change of the steps ----

  /** The result a step needs when it becomes completed. */
  predicate Complete(s: Step, produces: bool) {
    (!s.plan.publishable ==> s.report.output != "") && (produces ==> s.report.change.Some?)
  }

  /** What a move may do to one step. */
  ghost predicate LegalAt(a: Steps, b: Steps, n: string)
    requires n in a && n in b
  {
    && a[n].plan == b[n].plan
    && (a[n].state.Terminal() ==> b[n] == a[n] || b[n] == a[n].(cleaned := true))
    && (b[n].state.Begun() ==> a[n].state.Begun() || AllCompleted(a, a[n]))
    && (b[n].state.Skipped? ==> a[n].state.Skipped? || HasFatal(b, b[n]))
    && (b[n].state.Completed? ==> a[n].state.Completed? || Complete(b[n], ProducesChange(a, n)))
    && (b[n].cleaned ==> a[n].cleaned || (b[n].state.Completed? && !b[n].plan.publishable))
  }

  ghost predicate Legal(a: Steps, b: Steps) {
    a.Keys == b.Keys && forall n | n in a :: LegalAt(a, b, n)
  }

  lemma LegalSettles(a: Steps, b: Steps)
    requires Legal(a, b)
    ensures Settled(a, b)
  {
    forall n | n in a ensures a[n].plan == b[n].plan && (a[n].state.Terminal() ==> b[n] == a[n] || b[n] == a[n].(cleaned := true)) {
      assert LegalAt(a, b, n);
    }
  }

  lemma LegalSequences(a: Steps, b: Steps)
    requires Legal(a, b) && Settled(a, b) && Sequenced(a)
    ensures Sequenced(b)
  {
    forall n | n in b && b[n].state.Begun() ensures AllCompleted(b, b[n]) {
      assert LegalAt(a, b, n);
      assert AllCompleted(a, a[n]);
    }
    forall n | n in b && b[n].state.Skipped? ensures HasFatal(b, b[n]) {
      assert LegalAt(a, b, n);
      if a[n].state.Skipped? {
        var d :| d in a[n].plan.after && d in a && a[d].state.Fatal();
        assert d in b[n].plan.after && b[d].state.Fatal();
      }
    }
  }

  lemma LegalRecords(a: Steps, b: Steps)
    requires Legal(a, b) && Settled(a, b) && Recorded(a)
    ensures Recorded(b)
  {
    ShapeKeepsGraph(a, b);
    forall n | n in b && b[n].state.Completed? ensures Complete(b[n], ProducesChange(b, n)) {
      assert LegalAt(a, b, n);
      if a[n].state.Completed? { assert Complete(a[n], ProducesChange(a, n)); }
    }
    forall n | n in b && b[n].cleaned ensures b[n].state.Completed? && !b[n].plan.publishable {
      assert LegalAt(a, b, n);
    }
  }

  lemma LegalKeeps(a: Steps, b: Steps)
    requires Legal(a, b) && Sequenced(a) && Recorded(a)
    ensures Settled(a, b) && Sequenced(b) && Recorded(b)
  {
    LegalSettles(a, b);
    LegalSequences(a, b);
    LegalRecords(a, b);
  }

  // ---- Every part of a move is legal ----

  lemma StartKeeps(steps: Steps)
    ensures var s := StartAll(steps); Legal(steps, s) && ActiveCount(s) <= ActiveCount(steps)
  {
    var s := StartAll(steps);
    forall n | n in steps ensures LegalAt(steps, s, n) {}
    FewerActive(s, steps);
  }

  lemma ObserveOne(s: Step, o: Observation, produces: bool)
    requires s.state.Running?
    ensures var t := ObserveStep(s, o, produces);
            && t.plan == s.plan && t.cleaned == s.cleaned
            && (t.state.Running? || t.state.Completed? || t.state.Blocked? || t.state.Failed?)
            && (t.state.Completed? ==> Complete(t, produces))
  {
    if o.reply.Reported? {
      ReportedVerdict(s, o.reply.artifacts, o.at, produces);
      ReportedResult(s, o.reply.artifacts, o.at, produces);
    }
  }

  lemma ObserveKeeps(steps: Steps, observed: map<string, Observation>)
    requires Recorded(steps)
    ensures var s := ObserveAll(steps, observed); Legal(steps, s) && ActiveCount(s) <= ActiveCount(steps)
  {
    var s := ObserveAll(steps, observed);
    forall n | n in steps ensures LegalAt(steps, s, n) && (s[n].state.Active() ==> steps[n].state.Active()) {
      if steps[n].state.Running? && n in observed {
        ObserveOne(steps[n], observed[n], ProducesChange(steps, n));
      }
    }
    FewerActive(s, steps);
  }

  lemma FewerActive(s: Steps, steps: Steps)
    requires forall n | n in s && s[n].state.Active() :: n in steps && steps[n].state.Active()
    ensures ActiveCount(s) <= ActiveCount(steps)
  {
    SubsetSize(set n | n in s && s[n].state.Active(), set n | n in steps && steps[n].state.Active());
  }

  lemma SubsetSize(a: set<string>, b: set<string>)
    requires a <= b
    ensures |a| <= |b|
  {
    assert b == a + (b - a);
  }

  /** s is what a pass over the names makes of the steps. */
  ghost predicate Scheduled(steps: Steps, names: seq<string>, max: int, at: int, s: Steps) {
    && (forall n | n in names :: n in steps)
    && s.Keys == steps.Keys
    && forall n | n in steps :: s[n] == PassResult(steps, names, max, at, n)
  }

  lemma ScheduledOne(steps: Steps, names: seq<string>, max: int, at: int, s: Steps, n: string)
    requires Scheduled(steps, names, max, at, s) && n in steps
    ensures s[n].plan == steps[n].plan && s[n].cleaned == steps[n].cleaned
    ensures s[n] != steps[n] ==>
              steps[n].state.Pending? && (s[n].state.Skipped? || (s[n].state.Starting? && AllCompleted(steps, steps[n])))
  {
    assert s[n] == PassResult(steps, names, max, at, n);
    StartedArePending(steps, names, max, n);
  }

  lemma SkippedHasFatal(steps: Steps, names: seq<string>, max: int, at: int, s: Steps, n: string)
    requires Scheduled(steps, names, max, at, s) && n in steps
    requires steps[n].state.Skipped? ==> HasFatal(steps, steps[n])
    requires s[n].state.Skipped?
    ensures HasFatal(s, s[n])
  {
    ScheduledOne(steps, names, max, at, s, n);
    assert s[n] == PassResult(steps, names, max, at, n);
    var d: string;
    if n in SkippedBy(steps, names) {
      SkipCause(steps, names, n);
      d :| d in steps[n].plan.after && d in steps && (steps[d].state.Fatal() || d in SkippedBy(steps, names));
    } else {
      StartedArePending(steps, names, max, n);
      d :| d in steps[n].plan.after && d in steps && steps[d].state.Fatal();
    }
    assert s[d] == PassResult(steps, names, max, at, d);
    ScheduledOne(steps, names, max, at, s, d);
  }

  lemma ScheduleKeeps(steps: Steps, max: int, at: int)
    requires Sequenced(steps) && ActiveCount(steps) <= max
    ensures var s := Schedule(steps, max, at); Legal(steps, s) && ActiveCount(s) <= max
  {
    ScheduleIsGreedy(steps, max, at);
    StartedActive(steps, Sorted(steps.Keys), max, at);
    ScheduledLegal(steps, Sorted(steps.Keys), max, at, Schedule(steps, max, at));
  }

  lemma ScheduledLegal(steps: Steps, names: seq<string>, max: int, at: int, s: Steps)
    requires Sequenced(steps) && Scheduled(steps, names, max, at, s)
    ensures Legal(steps, s)
  {
    forall n | n in steps ensures LegalAt(steps, s, n) {
      ScheduledOne(steps, names, max, at, s, n);
      if s[n].state.Skipped? {
        SkippedHasFatal(steps, names, max, at, s, n);
      }
    }
  }

  lemma SkipCause(steps: Steps, names: seq<string>, n: string)
    requires forall m | m in names :: m in steps
    requires n in SkippedBy(steps, names)
    ensures exists d :: d in steps[n].plan.after && d in steps && (steps[d].state.Fatal() || d in SkippedBy(steps, names))
  {
    var front, last := names[..|names| - 1], names[|names| - 1];
    if n in SkippedBy(steps, front) {
      SkipCause(steps, front, n);
    } else {
      assert Doomed(steps, steps[n], SkippedBy(steps, front));
    }
  }

  lemma StartedActive(steps: Steps, names: seq<string>, max: int, at: int)
    requires names == Sorted(steps.Keys) && ActiveCount(steps) <= max
    ensures ActiveCount(Schedule(steps, max, at)) <= max
  {
    var s := Schedule(steps, max, at);
    ScheduleIsGreedy(steps, max, at);
    var was, now := set n | n in steps && steps[n].state.Active(), set n | n in s && s[n].state.Active();
    var started := Started(steps, names, max);
    assert now <= was + set n | n in started;
    SeqSetSize(started);
    SubsetSize(now, was + set n | n in started);
  }

  /** Afterwards the run's slots are full, or no step is left that could start. */
  lemma PassFillsSlots(run: Run, observed: map<string, Observation>, at: int)
    requires Sound(run)
    ensures var steps := ReconcileSteps(run, observed, at);
            && ActiveCount(steps) <= run.header.maxParallelism
            && (ActiveCount(steps) == run.header.maxParallelism
                || forall n | n in steps && steps[n].state.Pending? ::
                     exists d :: d in steps[n].plan.after && (d !in steps || !steps[d].state.Completed?))
  {
    hide Sequenced, Recorded, ObserveAll, StartAll, Sorted;
    ReconcileKeeps(run, observed, at);
    var heard := ObserveAll(StartAll(run.steps), observed);
    var steps := ReconcileSteps(run, observed, at);
    var names := Sorted(heard.Keys);
    ScheduleIsGreedy(heard, run.header.maxParallelism, at);
    if forall n | n in heard :: !Ready(steps, n) {
      forall n | n in steps && steps[n].state.Pending?
        ensures exists d :: d in steps[n].plan.after && (d !in steps || !steps[d].state.Completed?)
      {
        assert !Ready(steps, n);
      }
    } else {
      AllStartedCount(heard, names, run.header.maxParallelism, at);
    }
  }

  /** Every started step is one active step more. */
  lemma AllStartedCount(steps: Steps, names: seq<string>, max: int, at: int)
    requires names == Sorted(steps.Keys)
    ensures ActiveCount(Schedule(steps, max, at)) == ActiveCount(steps) + |Started(steps, names, max)|
  {
    hide Sorted, Started, SkippedBy, AllCompleted, HasFatal, Schedule;
    var s := Schedule(steps, max, at);
    ScheduleIsGreedy(steps, max, at);
    var started := Started(steps, names, max);
    StartedDistinct(steps, names, max);
    DistinctSize(started);
    var was, now, more := set n | n in steps && steps[n].state.Active(), set n | n in s && s[n].state.Active(), set n | n in started;
    forall n ensures n in now <==> n in was || n in more {
      StartedArePending(steps, names, max, n);
      if n in more { ReadyIsNotSkipped(steps, names, n); }
    }
    assert now == was + more;
    assert was !! more by {
      forall n | n in more ensures n !in was { StartedArePending(steps, names, max, n); }
    }
  }

  lemma StartedDistinct(steps: Steps, names: seq<string>, max: int)
    requires Ascending(names)
    ensures Distinct(Started(steps, names, max))
  {
    AscendingIsDistinct(names);
    ReadyNamesDistinct(steps, names);
  }

  lemma {:induction false} DistinctSize(names: seq<string>)
    requires Distinct(names)
    ensures |set n | n in names| == |names|
  {
    if names != [] {
      DistinctSize(names[1..]);
      assert (set n | n in names) == {names[0]} + set n | n in names[1..];
    }
  }

  lemma SeqSetSize(names: seq<string>)
    ensures |set n | n in names| <= |names|
  {
    if names != [] {
      SeqSetSize(names[1..]);
      assert (set n | n in names) == {names[0]} + set n | n in names[1..];
    }
  }

  lemma SettledTransitive(a: Steps, b: Steps, c: Steps)
    requires Settled(a, b) && Settled(b, c)
    ensures Settled(a, c)
  {}

  lemma PlanKept(header: Header, a: Steps, b: Steps, rank: Rank)
    requires Planned(header, a, rank) && SameShape(a, b)
    ensures Planned(header, b, rank)
  {
    ShapeKeepsGraph(a, b);
  }

  lemma ReconcileKeeps(run: Run, observed: map<string, Observation>, at: int)
    requires Sound(run)
    ensures var s := ReconcileSteps(run, observed, at);
            Settled(run.steps, s) && Sequenced(s) && Recorded(s) && ActiveCount(s) <= run.header.maxParallelism
  {
    var s1 := StartAll(run.steps);
    StartKeeps(run.steps);
    LegalKeeps(run.steps, s1);
    var s2 := ObserveAll(s1, observed);
    ObserveKeeps(s1, observed);
    LegalKeeps(s1, s2);
    var s3 := ReconcileSteps(run, observed, at);
    ScheduleKeeps(s2, run.header.maxParallelism, at);
    LegalKeeps(s2, s3);
    SettledTransitive(run.steps, s1, s2);
    SettledTransitive(run.steps, s2, s3);
  }

  lemma ReconcileSound(run: Run, observed: map<string, Observation>, at: int, saved: int)
    requires Sound(run) && !run.cancelRequested
    ensures var next := Apply(run, Reconcile(observed, at, saved));
            next.header == run.header && Settled(run.steps, next.steps) && Sound(next)
  {
    var s := ReconcileSteps(run, observed, at);
    ReconcileKeeps(run, observed, at);
    NoCancel(run.steps, observed, run.header.maxParallelism, at);
    SoundWith(run.(steps := s, state := RunStateOf(s), updatedAt := saved));
  }

  lemma SoundWith(run: Run)
    requires run.state == RunStateOf(run.steps) && Sequenced(run.steps) && Recorded(run.steps)
    requires ActiveCount(run.steps) <= run.header.maxParallelism
    requires forall n | n in run.steps :: !run.steps[n].state.Canceled?
    ensures Sound(run)
  {}

  lemma CancelLegal(steps: Steps, s: Steps, at: int)
    requires s.Keys == steps.Keys && forall n | n in steps :: s[n] == CancelStep(steps[n], at)
    ensures Legal(steps, s)
  {
    forall n | n in steps ensures LegalAt(steps, s, n) {}
  }

  lemma CancelEnds(steps: Steps, s: Steps, at: int)
    requires s.Keys == steps.Keys && forall n | n in steps :: s[n] == CancelStep(steps[n], at)
    ensures ActiveCount(s) <= ActiveCount(steps) && forall n | n in s :: s[n].state.Terminal()
  {
    FewerActive(s, steps);
  }

  lemma CancelKeeps(run: Run, at: int)
    requires Sound(run) && run.cancelRequested
    ensures var next := Apply(run, CancelAll(at)); Settled(run.steps, next.steps) && Sound(next)
  {
    var s := Apply(run, CancelAll(at)).steps;
    CancelLegal(run.steps, s, at);
    LegalKeeps(run.steps, s);
    CancelEnds(run.steps, s, at);
  }

  lemma CleanLegal(steps: Steps, s: Steps)
    requires s.Keys == steps.Keys && forall n | n in steps :: s[n] == CleanStep(steps[n])
    ensures Legal(steps, s)
  {
    forall n | n in steps ensures LegalAt(steps, s, n) {}
  }

  lemma CleanKeeps(run: Run, at: int)
    requires Sound(run)
    ensures var next := Apply(run, Clean(at)); Settled(run.steps, next.steps) && Sound(next)
  {
    var s := Apply(run, Clean(at)).steps;
    CleanLegal(run.steps, s);
    LegalKeeps(run.steps, s);
    FewerActive(s, run.steps);
    SameStates(run.steps, s);
  }

  /**
   * Every saved change keeps a planned run planned and sound, never exceeds the parallelism,
   * and never alters what a terminal step recorded.
   */
  lemma {:induction false} MoveKeeps(run: Run, m: Move, rank: Rank)
    requires Planned(run.header, run.steps, rank) && Sound(run) && Enabled(run, m)
    ensures var next := Apply(run, m);
            && next.header == run.header
            && Planned(next.header, next.steps, rank)
            && Sound(next)
            && Settled(run.steps, next.steps)
  {
    match m {
      case Reconcile(observed, at, saved) => ReconcileSound(run, observed, at, saved);
      case RequestCancel(at) => assert Sound(Apply(run, m));
      case CancelAll(at) => CancelKeeps(run, at);
      case Clean(at) => CleanKeeps(run, at);
      case BeginDelete(at) => assert Sound(Apply(run, m));
    }
    PlanKept(run.header, run.steps, Apply(run, m).steps, rank);
  }

  lemma SameStates(a: Steps, b: Steps)
    requires a.Keys == b.Keys && forall n | n in a :: a[n].state == b[n].state
    ensures RunStateOf(a) == RunStateOf(b)
  {
    forall state ensures Has(a, state) <==> Has(b, state) {
      HasBoth(a, b, state);
      HasBoth(b, a, state);
    }
  }

  lemma HasBoth(a: Steps, b: Steps, state: StepState)
    requires a.Keys == b.Keys && forall n | n in a :: a[n].state == b[n].state
    ensures Has(a, state) ==> Has(b, state)
  {
    if Has(a, state) {
      var n :| n in a && a[n].state == state;
      assert n in b && b[n].state == state;
    }
  }

  lemma NoCancel(steps: Steps, observed: map<string, Observation>, max: int, at: int)
    requires forall n | n in steps :: !steps[n].state.Canceled?
    ensures var s := Schedule(ObserveAll(StartAll(steps), observed), max, at);
            forall n | n in s :: !s[n].state.Canceled?
  {
    var s1 := StartAll(steps);
    var s2 := ObserveAll(s1, observed);
    ScheduleIsGreedy(s2, max, at);
    forall n | n in s2 ensures !s2[n].state.Canceled? {
      if s1[n].state.Running? && n in observed {
        ObserveOne(s1[n], observed[n], ProducesChange(s1, n));
      }
    }
  }

  /** Under these invariants the missing-change error cannot arise: a step about to start has its change. */
  lemma HandoffNeverFails(run: Run, rank: Rank, n: string)
    requires Planned(run.header, run.steps, rank) && Sound(run)
    requires n in run.steps && run.steps[n].state.Begun()
    ensures HandoffReady(run.steps, run.steps[n])
  {
    var source := run.steps[n].plan.changeFrom;
    if source != "" {
      assert ProducesChange(run.steps, source);
    }
  }

  /** However a run moves on, a step that has begun is asked for exactly the same thing again. */
  lemma {:induction false} RedispatchIsIdempotent(run: Run, m: Move, rank: Rank, n: string)
    requires Planned(run.header, run.steps, rank) && Sound(run) && Enabled(run, m)
    requires n in run.steps && run.steps[n].state.Begun()
    ensures var next := Apply(run, m);
            && n in next.steps
            && HandoffReady(run.steps, run.steps[n]) && HandoffReady(next.steps, next.steps[n])
            && Request(next.header, next.steps, next.steps[n]) == Request(run.header, run.steps, run.steps[n])
  {
    var next := Apply(run, m);
    MoveKeeps(run, m, rank);
    HandoffNeverFails(run, rank, n);
    SettledRequest(run.header, run.steps, next.steps, n);
  }

  lemma SettledRequest(header: Header, a: Steps, b: Steps, n: string)
    requires Settled(a, b) && n in a && AllCompleted(a, a[n])
    requires HandoffReady(a, a[n]) && (a[n].plan.changeFrom != "" ==> a[n].plan.changeFrom in a[n].plan.after)
    ensures HandoffReady(b, b[n]) && Request(header, b, b[n]) == Request(header, a, a[n])
  {
    ShapeKeepsGraph(a, b);
    assert DependencyOutputs(b, b[n]) == DependencyOutputs(a, a[n]);
  }
}
