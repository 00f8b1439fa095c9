/** What observing the running steps of a run keeps: every recorded reply is what the step's session said. */
module RunObservation {
  import opened Prelude
  import opened Graphs
  import opened SessionTypes
  import opened SessionTasks
  import opened SessionStore
  import opened SessionControl
  import opened WorkflowRun
  import opened RunMoves
  import opened WorkflowStore
  import opened Accounting

  /** The answer is what the session's latest task says. */
  ghost predicate Answered(name: string, reply: SessionReply, rows: RowsState) {
    && name in rows.sessions && name in rows.tasks && |rows.tasks[name]| > 0
    && reply == ReplyFor(Latest(rows.tasks[name]))
  }

  /** What asking a session may have done to the rows: progress of that session's tasks, without a cancellation. */
  ghost predicate AskedOne(name: string, a: RowsState, b: RowsState) {
    && b.sessions == a.sessions && a.tasks.Keys == b.tasks.Keys == a.sessions.Keys
    && OthersKept(name, a.sessions, a.tasks, b.sessions, b.tasks)
    && (name in a.sessions ==> SameLength(a.tasks[name], b.tasks[name]) && NoneCanceled(a.tasks[name], b.tasks[name]))
  }

  lemma NothingAsked(name: string, a: RowsState)
    requires a.tasks.Keys == a.sessions.Keys
    ensures AskedOne(name, a, a)
  {}

  lemma AskedTwice(name: string, a: RowsState, b: RowsState, c: RowsState)
    requires AskedOne(name, a, b) && AskedOne(name, b, c)
    ensures AskedOne(name, a, c)
  {
    if name in a.sessions { SameLengthTransitive(a.tasks[name], b.tasks[name], c.tasks[name]); }
  }

  lemma FinishedStays(name: string, a: RowsState, b: RowsState)
    requires AskedOne(name, a, b) && name in a.sessions && |a.tasks[name]| > 0 && Latest(a.tasks[name]).state.Terminal()
    ensures Latest(b.tasks[name]) == Latest(a.tasks[name])
  {
    assert TaskMoves(Latest(a.tasks[name]), Latest(b.tasks[name]));
  }

  lemma AskedWithin(names: set<string>, owner: string, name: string, a: RowsState, b: RowsState)
    requires AskedOne(name, a, b) && name in names
    ensures Within(names, owner, a, b)
  {
    OneIsWithin(names, owner, a, b, name);
  }

  lemma AskedAccounted(run: Run, defs: Snapshots, server: Server, name: string, a: RowsState, b: RowsState)
    requires Accounted(run, defs, server, a.sessions, a.tasks) && AskedOne(name, a, b)
    ensures Accounted(run, defs, server, b.sessions, b.tasks)
  {
    hide Accounted, SameLength, NoneCanceled;
    AccountedAfterProgress(run, defs, server, a.sessions, a.tasks, b.tasks, name);
  }

  /** The replies so far: about running steps only, finished ones with what their sessions say, others still unfinished. */
  ghost predicate Sighted(steps: Steps, observed: map<string, Observation>, rows: RowsState) {
    && (forall n | n in observed :: n in steps && steps[n].state.Running?)
    && Witnessed(steps, observed, rows.sessions, rows.tasks)
    && (DistinctSessions(steps) ==> StillUnfinished(steps, observed, rows.tasks))
  }

  /** What a pass over a run saw: the run was to be advanced, and its replies were true of the rows. */
  ghost predicate Observing(run: Run, m: Move, seen: RowsState) {
    !run.cancelRequested && !run.state.Ended() && m.Reconcile? && Sighted(StartAll(run.steps), m.observed, seen)
  }

  /** The running steps among the names were asked about. */
  ghost predicate ObservedSoFar(steps: Steps, names: seq<string>, observed: map<string, Observation>) {
    && (forall n | n in names && n in steps && steps[n].state.Running? :: n in observed)
    && (forall n | n in observed :: n in names)
  }

  lemma NothingObserved(steps: Steps, rows: RowsState)
    ensures ObserveAll(steps, map[]) == steps && Sighted(steps, map[], rows)
  {}

  /** Replies stay true while the next session is asked. */
  lemma SightedLater(steps: Steps, observed: map<string, Observation>, m: string, a: RowsState, b: RowsState)
    requires Sighted(steps, observed, a) && m in steps && m !in observed && AskedOne(steps[m].plan.session, a, b)
    ensures Sighted(steps, observed, b)
  {
    hide OthersKept, SameLength, NoneCanceled, Witnessed, StillUnfinished, DistinctSessions;
    WitnessedLater(steps, observed, a.sessions, a.tasks, b.tasks, steps[m].plan.session);
    if DistinctSessions(steps) { StillUnfinishedLater(steps, observed, a.sessions, a.tasks, b.tasks, m); }
  }

  lemma NextObserved(steps: Steps, names: seq<string>, observed: map<string, Observation>, n: string)
    requires n in steps && n !in names && ObservedSoFar(steps, names, observed)
    ensures n !in observed
    ensures var s := ObserveAll(steps, observed); n in s && s[n] == steps[n]
    ensures !steps[n].state.Running? ==> ObservedSoFar(steps, names + [n], observed)
  {}

  lemma OneMoreObserved(steps: Steps, names: seq<string>, observed: map<string, Observation>, n: string, o: Observation, rows: RowsState)
    requires n in steps && n !in names && ObservedSoFar(steps, names, observed) && steps[n].state.Running?
    requires Sighted(steps, observed, rows) && Answered(steps[n].plan.session, o.reply, rows)
    ensures var before, after := ObserveAll(steps, observed), ObserveAll(steps, observed[n := o]);
            && after == before[n := ObserveStep(steps[n], o, ProducesChange(before, n))]
            && (o.reply.Unfinished? ==> after == before)
    ensures ObservedSoFar(steps, names + [n], observed[n := o])
    ensures Sighted(steps, observed[n := o], rows)
  {
    hide ObserveStep, Witnessed, StillUnfinished, DistinctSessions, Sighted, Answered;
    SightedNext(steps, observed, n, o, rows);
    var before := ObserveAll(steps, observed);
    ShapeOfObserved(steps, observed);
    ShapeKeepsGraph(steps, before);
    assert before[n] == steps[n];
    if o.reply.Unfinished? { NothingToObserve(steps[n], o, ProducesChange(steps, n)); }
  }

  lemma NothingToObserve(step: Step, o: Observation, produces: bool)
    requires o.reply.Unfinished?
    ensures ObserveStep(step, o, produces) == step
  {}

  lemma SightedNext(steps: Steps, observed: map<string, Observation>, n: string, o: Observation, rows: RowsState)
    requires n in steps && steps[n].state.Running? && Sighted(steps, observed, rows) && Answered(steps[n].plan.session, o.reply, rows)
    ensures Sighted(steps, observed[n := o], rows)
  {}

  lemma ShapeOfObserved(steps: Steps, observed: map<string, Observation>)
    ensures SameShape(steps, ObserveAll(steps, observed))
  {
    forall n | n in steps && steps[n].state.Running? && n in observed
      ensures ObserveStep(steps[n], observed[n], ProducesChange(steps, n)).plan == steps[n].plan
    {
      ObserveOne(steps[n], observed[n], ProducesChange(steps, n));
    }
  }

  lemma PlannedNames(header: Header, steps: Steps, rank: Rank)
    requires Planned(header, steps, rank)
    ensures forall n | n in steps :: steps[n].plan.name == n
  {}

  /** What dispatching changes is the state of starting steps. */
  lemma StartedPlans(steps: Steps)
    ensures var started := StartAll(steps);
            && started.Keys == steps.Keys && SessionsOf(started) == SessionsOf(steps)
            && (DistinctSessions(started) <==> DistinctSessions(steps))
            && (forall n | n in steps :: started[n].plan == steps[n].plan && (started[n].state.Running? <==> steps[n].state.Active()))
  {
    var started := StartAll(steps);
    assert forall n | n in steps :: started[n].plan == steps[n].plan;
    assert forall n | n in steps :: steps[n].plan.session == started[n].plan.session;
  }

  /** A pass over dispatched and sighted steps keeps the run accounted for. */
  lemma ProgressAccounted(run: Run, m: Move, rank: Rank, defs: Snapshots, server: Server, rows: RowsState)
    requires Accounted(run, defs, server, rows.sessions, rows.tasks) && GoodRows(rows.sessions, rows.tasks)
    requires Planned(run.header, run.steps, rank) && Sound(run) && !run.cancelRequested && !run.state.Ended()
    requires forall n | n in run.steps && run.steps[n].state.Starting? :: run.steps[n].plan.session in rows.sessions
    requires m.Reconcile? && Sighted(StartAll(run.steps), m.observed, rows)
    ensures Accounted(Apply(run, m), defs, server, rows.sessions, rows.tasks)
  {
    ActiveAreRecorded(run, defs, server, rows);
    hide Accounted, Apply, Sound, Planned, Witnessed, Follows, GoodRows, ChangesReported, StillUnfinished, DistinctSessions;
    WitnessedChanges(run, rank, defs, server, rows.sessions, rows.tasks, m.observed);
    ReconcileFollows(run, m.observed, m.scheduledAt, m.savedAt, rows.sessions, rows.tasks);
    AccountedAfterMove(run, Apply(run, m), rank, defs, server, rows.sessions, rows.tasks);
  }

  lemma ActiveAreRecorded(run: Run, defs: Snapshots, server: Server, rows: RowsState)
    requires Accounted(run, defs, server, rows.sessions, rows.tasks) && !run.cancelRequested
    requires forall n | n in run.steps && run.steps[n].state.Starting? :: run.steps[n].plan.session in rows.sessions
    ensures forall n | n in run.steps && run.steps[n].state.Active() :: run.steps[n].plan.session in rows.sessions
  {
    forall n | n in run.steps && run.steps[n].state.Active() ensures run.steps[n].plan.session in rows.sessions {
      assert StepAccounted(run, defs, server, rows.sessions, rows.tasks, n);
    }
  }
}
