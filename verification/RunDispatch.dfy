/** What dispatching the starting steps of a run keeps: each gets the session it asks for, and at most that. */
module RunDispatch {
  import opened Prelude
  import opened Names
  import opened Graphs
  import opened SessionTypes
  import opened SessionTasks
  import opened SessionStore
  import opened SessionControl
  import opened WorkflowRun
  import opened RunMoves
  import opened WorkflowStore
  import opened Accounting
  import opened DnsNames

  /** The same plans and the same reports. */
  ghost predicate Alike(a: Steps, b: Steps) {
    SameShape(a, b) && forall n | n in a :: b[n].report == a[n].report
  }

  lemma AlikeStep(a: Run, b: Run, n: string)
    requires Alike(a.steps, b.steps) && n in a.steps && b.header == a.header && HandoffReady(a.steps, a.steps[n])
    ensures n in b.steps && b.steps[n].plan == a.steps[n].plan
    ensures HandoffReady(b.steps, b.steps[n]) && Request(b.header, b.steps, b.steps[n]) == Request(a.header, a.steps, a.steps[n])
  {
    SameReports(a.header, a.steps, b.steps, n);
  }

  /** A session as its dispatch leaves it. */
  ghost predicate JustDispatched(run: Run, defs: Snapshots, server: Server, rows: RowsState, n: string)
    requires n in run.steps
  {
    var name := run.steps[n].plan.session;
    && name in rows.sessions && name in rows.tasks
    && Dispatched(run, defs, server, rows.sessions[name], rows.tasks[name], n)
    && rows.sessions[name].deletion.None? && rows.tasks[name][0].state.TaskPending?
  }

  /** What starting a step's session may have done to the rows: nothing to a session that was there. */
  ghost predicate StartedOne(run: Run, defs: Snapshots, server: Server, a: RowsState, b: RowsState, n: string)
    requires n in run.steps
  {
    var name := run.steps[n].plan.session;
    && a.tasks.Keys == a.sessions.Keys && b.tasks.Keys == b.sessions.Keys
    && OthersKept(name, a.sessions, a.tasks, b.sessions, b.tasks)
    && (name in a.sessions ==> b == a)
    && (name in b.sessions && name !in a.sessions ==> JustDispatched(run, defs, server, b, n))
  }

  lemma NothingDispatched(run: Run, defs: Snapshots, server: Server, a: RowsState, n: string)
    requires n in run.steps && a.tasks.Keys == a.sessions.Keys
    ensures StartedOne(run, defs, server, a, a, n)
  {}

  /** A session and task as its start leaves them are as dispatched, and only a session with the same intent is. */
  lemma StartIsDispatch(run: Run, defs: Snapshots, server: Server, n: string)
    requires n in run.steps && HandoffReady(run.steps, run.steps[n]) && run.steps[n].plan.agent in defs
    ensures var d := defs[run.steps[n].plan.agent];
            var r := Normalized(d, Request(run.header, run.steps, run.steps[n]));
            && r.name == run.steps[n].plan.session
            && (forall rows: RowsState, at | BegunWith(rows, d, r, server, at) :: JustDispatched(run, defs, server, rows, n))
            && (forall record, history | Dispatched(run, defs, server, record, history, n) ::
                  record.intent == Intent(d, r, server.scope, server.image))
  {}

  ghost predicate BegunWith(rows: RowsState, d: Definition, r: StartRequest, server: Server, at: int) {
    && r.name in rows.sessions && rows.sessions[r.name] == InitialRecord(d, r, server.scope, server.image, at)
    && r.name in rows.tasks && rows.tasks[r.name] == [InitialTask(r, at)]
  }

  lemma RequestName(run: Run, n: string)
    requires n in run.steps && HandoffReady(run.steps, run.steps[n])
    ensures Request(run.header, run.steps, run.steps[n]).name == run.steps[n].plan.session
  {}

  lemma GoalIsText(header: Header, steps: Steps, s: Step)
    ensures !IsBlank(StepPrompt(header, steps, s))
  {
    assert StepPrompt(header, steps, s)[0] == GOAL[0] == 'W';
    assert !IsSpace('W');
  }

  /** No dispatch of an accounted run is refused as invalid: every name, kind, and change it hands on fits the session layer. */
  lemma DispatchIsValid(run: Run, rank: Rank, defs: Snapshots, server: Server, sessions: Sessions, tasks: Tasks, n: string)
    requires Accounted(run, defs, server, sessions, tasks) && Planned(run.header, run.steps, rank)
    requires n in run.steps && HandoffReady(run.steps, run.steps[n])
    ensures run.steps[n].plan.agent in defs
    ensures var d := defs[run.steps[n].plan.agent]; ValidStart(d, Normalized(d, Request(run.header, run.steps, run.steps[n])))
  {
    hide IsLabel, ValidDefinition, IsBlank, StepAccounted, Owned, StepPrompt, Ranks;
    var s := run.steps[n];
    GoalIsText(run.header, run.steps, s);
    LabelHasText(run.header.name, RUN_NAME_MAX, SESSION_NAME_MAX);
    LabelHasText(n, TASK_ID_MAX, TASK_ID_MAX);
    if s.plan.changeFrom != "" { HandedChange(run, rank, n); }
    if ProducesChange(run.steps, n) {
      var m :| m in run.steps && run.steps[m].plan.changeFrom == n;
      assert Retains(defs, run.steps[n]);
    }
  }

  lemma LabelHasText(s: string, max: nat, wider: nat)
    requires IsLabel(s, max) && max <= wider
    ensures s != "" && IsLabel(s, wider)
  {}

  /** A handed change is valid and comes from another session. */
  lemma HandedChange(run: Run, rank: Rank, n: string)
    requires Planned(run.header, run.steps, rank) && DistinctSessions(run.steps) && ChangesValid(run.steps)
    requires n in run.steps && run.steps[n].plan.changeFrom != "" && HandoffReady(run.steps, run.steps[n])
    ensures var source := run.steps[run.steps[n].plan.changeFrom];
            source.plan.session != run.steps[n].plan.session && ValidChange(source.report.change.value)
  {
    var from := run.steps[n].plan.changeFrom;
    assert GraphOf(run.steps)[n] == run.steps[n].plan.after;
    assert from != n;
  }

  /** A dispatch keeps the run accounted for. */
  lemma DispatchAccounted(r0: Run, run: Run, defs: Snapshots, server: Server, a: RowsState, b: RowsState, n: string)
    requires Accounted(r0, defs, server, a.sessions, a.tasks) && n in r0.steps && r0.steps[n].state.Starting?
    requires run.header == r0.header && Alike(r0.steps, run.steps) && StartedOne(run, defs, server, a, b, n)
    ensures Accounted(r0, defs, server, b.sessions, b.tasks)
    ensures var name := r0.steps[n].plan.session;
            name in b.sessions ==> name in b.tasks && Dispatched(run, defs, server, b.sessions[name], b.tasks[name], n)
  {
    hide Accounted, OthersKept, Dispatched, StepAccounted;
    var name := r0.steps[n].plan.session;
    if name in b.sessions { DispatchedAlike(r0, run, defs, server, b.sessions[name], b.tasks[name], n); }
    AccountedAfterStart(r0, defs, server, a.sessions, a.tasks, b.sessions, b.tasks, n);
    if name in b.sessions { AccountedDispatch(r0, defs, server, b.sessions, b.tasks, n); }
  }

  lemma AccountedDispatch(run: Run, defs: Snapshots, server: Server, s: Sessions, t: Tasks, n: string)
    requires Accounted(run, defs, server, s, t) && n in run.steps && run.steps[n].plan.session in s
    ensures run.steps[n].plan.session in t
    ensures Dispatched(run, defs, server, s[run.steps[n].plan.session], t[run.steps[n].plan.session], n)
  {
    assert StepAccounted(run, defs, server, s, t, n);
  }

  /** A dispatch touches the step's session only, and takes no session away. */
  lemma DispatchWithin(names: set<string>, run: Run, defs: Snapshots, server: Server, a: RowsState, b: RowsState, n: string)
    requires n in run.steps && StartedOne(run, defs, server, a, b, n) && run.steps[n].plan.session in names
    ensures Within(names, run.header.name, a, b) && a.sessions.Keys <= b.sessions.Keys
  {
    var name := run.steps[n].plan.session;
    forall s | s in a.sessions ensures s in b.sessions {
      if s != name { OtherKept(name, a.sessions, a.tasks, b.sessions, b.tasks, s); }
    }
    OneIsWithin(names, run.header.name, a, b, name);
  }

  // ---- The loop over the steps ----

  ghost function Elements(names: seq<string>): set<string> {
    set n | n in names
  }

  lemma EveryElement(names: seq<string>, keys: set<string>)
    requires forall n :: n in names <==> n in keys
    ensures Elements(names) == keys
  {}

  ghost predicate AllDispatched(steps: Steps, names: set<string>, sessions: Sessions) {
    forall n | n in names && n in steps && steps[n].state.Starting? :: steps[n].plan.session in sessions
  }

  lemma EveryStarting(steps: Steps, sessions: Sessions)
    requires AllDispatched(steps, steps.Keys, sessions)
    ensures forall n | n in steps && steps[n].state.Starting? :: steps[n].plan.session in sessions
  {}

  lemma NothingStarted(steps: Steps, sessions: Sessions)
    ensures StartedIn(steps, []) == steps && AllDispatched(steps, Elements([]), sessions)
  {}

  lemma StartedAlike(steps: Steps, names: seq<string>)
    ensures Alike(steps, StartedIn(steps, names))
  {}

  lemma NextName(names: seq<string>, i: nat)
    requires i < |names| && Ascending(names)
    ensures names[i] !in names[..i] && names[..i + 1] == names[..i] + [names[i]]
  {}

  lemma DispatchedNext(steps: Steps, names: seq<string>, i: nat, s0: Sessions, s1: Sessions)
    requires i < |names| && AllDispatched(steps, Elements(names[..i]), s0) && s0.Keys <= s1.Keys
    requires names[i] in steps && (steps[names[i]].state.Starting? ==> steps[names[i]].plan.session in s1)
    ensures AllDispatched(steps, Elements(names[..i + 1]), s1)
  {}
}
