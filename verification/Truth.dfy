/**
 * What controllers record is what agents did: when every finished session says what its agent makes of what it was
 * started to do, the moves saved from those sessions are faithful to the agents.
 */
module Truth {
  import opened Prelude
  import opened Graphs
  import opened SessionTypes
  import opened SessionTasks
  import opened SessionStore
  import opened SessionControl
  import opened WorkflowRun
  import opened RunMoves
  import opened RunHistory
  import opened OptimisticRows
  import opened WorkflowStore
  import opened Accounting
  import opened RunObservation
  import opened RunSaving
  import opened Confluence
  import opened Liveness

  /** What agents make of whatever a session can be started to do: its artifacts, or none when it fails. */
  type Work = Intent -> Option<Artifacts>

  /** Every session's first task, once finished and not canceled, says what the agent makes of the session's intent. */
  ghost predicate Truthful(work: Work, rows: RowsState) {
    forall s | s in rows.sessions && s in rows.tasks && |rows.tasks[s]| > 0 ::
      var task := rows.tasks[s][0];
      task.state.Terminal() && !task.state.TaskCanceled? ==> ReplyFor(task) == ReplyOf(work(rows.sessions[s].intent))
  }

  /** What the agents of a run make of a request of one of its steps. */
  function AgentsOf(work: Work, initial: Steps, defs: Snapshots, server: Server): Agents {
    (r: StartRequest) =>
      if r.workflowStep in initial && initial[r.workflowStep].plan.agent in defs then
        var d := defs[initial[r.workflowStep].plan.agent];
        work(Intent(d, Normalized(d, r), server.scope, server.image))
      else None
  }

  /** What a pass over accounted, truthful sessions records is faithful to the agents. */
  lemma ObservedIsFaithful(run: Run, m: Move, rank: Rank, initial: Steps, defs: Snapshots, server: Server, seen: RowsState, work: Work)
    requires Accounted(run, defs, server, seen.sessions, seen.tasks) && Planned(run.header, run.steps, rank)
    requires Observing(run, m, seen) && Truthful(work, seen) && SameShape(initial, run.steps)
    ensures Faithful(run, m, AgentsOf(work, initial, defs, server))
  {
    hide Accounted, Planned, Request, HandoffReady, Truthful, StillUnfinished, DistinctSessions;
    var steps := StartAll(run.steps);
    StartedPlans(run.steps);
    forall n | n in m.observed && n in steps && HandoffReady(steps, steps[n]) && !m.observed[n].reply.Unfinished?
      ensures m.observed[n].reply == ReplyOf(AgentsOf(work, initial, defs, server)(Request(run.header, steps, steps[n])))
    {
      assert run.steps[n].state.Active();
      RequestOfStarted(run, n);
      ReplyIsWork(run, rank, initial, defs, server, seen, work, n);
    }
  }

  /** Dispatching does not change what a step's session is asked. */
  lemma RequestOfStarted(run: Run, n: string)
    requires n in run.steps && n in StartAll(run.steps) && HandoffReady(StartAll(run.steps), StartAll(run.steps)[n])
    ensures HandoffReady(run.steps, run.steps[n])
    ensures Request(run.header, StartAll(run.steps), StartAll(run.steps)[n]) == Request(run.header, run.steps, run.steps[n])
  {
    SameReports(run.header, StartAll(run.steps), run.steps, n);
  }

  /** An active step's finished session says what the agent makes of the step's request. */
  lemma ReplyIsWork(run: Run, rank: Rank, initial: Steps, defs: Snapshots, server: Server, seen: RowsState, work: Work, n: string)
    requires Accounted(run, defs, server, seen.sessions, seen.tasks) && Planned(run.header, run.steps, rank)
    requires Truthful(work, seen) && SameShape(initial, run.steps) && !run.cancelRequested
    requires n in run.steps && run.steps[n].state.Active() && HandoffReady(run.steps, run.steps[n])
    requires var name := run.steps[n].plan.session;
             name in seen.sessions && name in seen.tasks && |seen.tasks[name]| > 0 && Latest(seen.tasks[name]).state.Terminal()
    ensures ReplyFor(Latest(seen.tasks[run.steps[n].plan.session]))
            == ReplyOf(AgentsOf(work, initial, defs, server)(Request(run.header, run.steps, run.steps[n])))
  {
    hide Presentable, Owned, SourcesRetain, ChangesValid, DistinctSessions, StepPrompt, Ranks, ReplyFor, ReplyOf, Normalized,
         GraphOf, HandoffReady;
    var name := run.steps[n].plan.session;
    assert StepAccounted(run, defs, server, seen.sessions, seen.tasks, n);
    assert run.steps[n].plan.name == n && Latest(seen.tasks[name]) == seen.tasks[name][0];
    assert ReplyFor(seen.tasks[name][0]) == ReplyOf(work(seen.sessions[name].intent));
  }

  /** The sessions of a run's active steps have finished. */
  ghost predicate AllFinished(run: Run, rows: RowsState) {
    forall n | n in run.steps && run.steps[n].state.Active() ::
      var name := run.steps[n].plan.session;
      name in rows.tasks && |rows.tasks[name]| > 0 ==> Latest(rows.tasks[name]).state.Terminal()
  }

  /** A pass that asked about every active step while their sessions had finished is prompt. */
  lemma ObservedIsPrompt(run: Run, m: Move, seen: RowsState)
    requires Observing(run, m, seen) && DistinctSessions(run.steps) && AllFinished(run, seen)
    requires forall n | n in run.steps && run.steps[n].state.Active() :: n in m.observed
    ensures Prompt(run, m)
  {
    hide Witnessed, DistinctSessions;
    StartedPlans(run.steps);
  }

  /** The values of a run's row are faithful to agents that do this work. */
  ghost predicate DoneBy(work: Work, defs: Snapshots, server: Server, history: seq<Run>) {
    |history| > 0 && exists rank :: StoredHistory(history, rank, AgentsOf(work, history[0].steps, defs, server))
  }

  /** They stay so when a pass that saw truthful sessions saves its moves, and when moves of any other kind are saved. */
  lemma DoneContinues(work: Work, defs: Snapshots, server: Server, name: string, a: seq<Run>, b: seq<Run>, m: Move, saved: seq<Move>,
                      seen: RowsState)
    requires DoneBy(work, defs, server, a) && RunChain(name, a) && Continues(a, b, saved) && FromPass(m, saved)
    requires m.Reconcile? ==>
               && Observing(a[|a| - 1], m, seen) && Truthful(work, seen)
               && Accounted(a[|a| - 1], defs, server, seen.sessions, seen.tasks)
    ensures DoneBy(work, defs, server, b)
  {
    hide RunChain, Observing, Accounted, Fresh, Planned, Enabled, Apply, Faithful, Truthful, AgentsOf, Sound;
    var rank :| StoredHistory(a, rank, AgentsOf(work, a[0].steps, defs, server));
    var agents := AgentsOf(work, a[0].steps, defs, server);
    var last := |a| - 1;
    if m.Reconcile? {
      var r := ChainIsSound(name, a, last);
      ObservedIsFaithful(a[last], m, r, a[0].steps, defs, server, seen, work);
    }
    forall i | 0 <= i < |b| - 1 ensures FaithfulMoves(agents, b[i], b[i + 1]) {
      if i < last {
        assert b[i] == a[i] && b[i + 1] == a[i + 1];
      } else {
        var k := i - last;
        assert Enabled(b[|a| + k - 1], saved[k]) && b[|a| + k] == Apply(b[|a| + k - 1], saved[k]);
        if !saved[k].Reconcile? { OtherMovesAreFaithful(b[i], saved[k], agents); }
        assert Faithful(b[i], saved[k], agents);
      }
    }
    assert StoredHistory(b, rank, agents);
  }

  lemma OtherMovesAreFaithful(run: Run, m: Move, agents: Agents)
    requires !m.Reconcile?
    ensures Faithful(run, m, agents)
  {}

  /** A run's history starts faithful. */
  lemma DoneStarts(work: Work, defs: Snapshots, server: Server, run: Run)
    requires Storable(run)
    ensures DoneBy(work, defs, server, [run])
  {
    hide Planned, Fresh, AgentsOf;
    var rank :| Planned(run.header, run.steps, rank);
    assert StoredHistory([run], rank, AgentsOf(work, run.steps, defs, server));
  }

  /**
   * Two stored runs of one workflow and goal, on servers of the same scope and image whose agents do the same work, end
   * every step alike, whatever the parallelism, the timing, the interleaving with other operations, and the crashes.
   */
  lemma SameWorkSameEnd(work: Work, defs: Snapshots, server: Server, s: seq<Run>, t: seq<Run>)
    requires DoneBy(work, defs, server, s) && s[|s| - 1].state.Terminal() && !s[|s| - 1].cancelRequested
    requires DoneBy(work, defs, server, t) && t[|t| - 1].state.Terminal() && !t[|t| - 1].cancelRequested
    requires s[0].steps == t[0].steps && SameGoal(s[0].header, t[0].header)
    ensures var a, b := s[|s| - 1], t[|t| - 1];
            && a.steps.Keys == b.steps.Keys
            && (forall n | n in a.steps :: VerdictOf(a.steps[n]) == VerdictOf(b.steps[n]))
            && a.state == b.state
  {
    hide StoredHistory, AgentsOf;
    var agents := AgentsOf(work, s[0].steps, defs, server);
    var rs :| StoredHistory(s, rs, agents);
    var rt :| StoredHistory(t, rt, agents);
    StoredRunsConfluent(s, rs, t, rt, agents);
  }
}
