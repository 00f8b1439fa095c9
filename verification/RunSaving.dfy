/** What the saved rows of a run say about its moves, and what an operation may have made of a run. */
module RunSaving {
  import opened Prelude
  import opened Graphs
  import opened SessionStore
  import opened SessionControl
  import opened WorkflowRun
  import opened RunMoves
  import opened RunHistory
  import opened OptimisticRows
  import opened WorkflowStore
  import opened Accounting

  /** One history goes on from its last value by these moves, each enabled where it was made. */
  ghost predicate Continues(a: seq<Run>, b: seq<Run>, moves: seq<Move>) {
    && 0 < |a| && |b| == |a| + |moves| && a <= b
    && forall i | 0 <= i < |moves| ::
         Enabled(b[|a| + i - 1], moves[i]) && b[|a| + i] == Apply(b[|a| + i - 1], moves[i])
  }

  /** Exactly these moves were saved, all of them to the named row. */
  ghost predicate SavedMoves(name: string, a: Histories, b: Histories, moves: seq<Move>) {
    && b - {name} == a - {name} && (name in a <==> name in b)
    && (if name in a && name in b then Continues(a[name], b[name], moves) else moves == [])
  }

  lemma NoneSaved(name: string, a: Histories)
    requires name in a ==> |a[name]| > 0
    ensures SavedMoves(name, a, a, [])
  {}

  lemma OthersSame(name: string, a: Histories, b: Histories, moves: seq<Move>)
    requires SavedMoves(name, a, b, moves)
    ensures b - {name} == a - {name}
  {}

  lemma OneSaved(name: string, a: Histories, m: Move)
    requires name in a && |a[name]| > 0 && Enabled(a[name][|a[name]| - 1], m)
    ensures SavedMoves(name, a, a[name := a[name] + [Apply(a[name][|a[name]| - 1], m)]], [m])
  {}

  lemma BothSaved(name: string, a: Histories, b: Histories, c: Histories, x: seq<Move>, y: seq<Move>)
    requires SavedMoves(name, a, b, x) && SavedMoves(name, b, c, y)
    ensures SavedMoves(name, a, c, x + y)
  {
    hide Enabled, Apply;
    if name in a {
      forall i | 0 <= i < |x + y|
        ensures Enabled(c[name][|a[name]| + i - 1], (x + y)[i])
        ensures c[name][|a[name]| + i] == Apply(c[name][|a[name]| + i - 1], (x + y)[i])
      {
        if i >= |x| { assert (x + y)[i] == y[i - |x|]; }
      }
    }
  }

  /**
   * An operation saw the rows at some moment: until then it took no session of the run away, from then on it added none,
   * and all the time it touched no other session.
   */
  ghost predicate SeenWithin(names: set<string>, owner: string, a: RowsState, seen: RowsState, b: RowsState) {
    && GoodRows(seen.sessions, seen.tasks)
    && Within(names, owner, a, seen) && a.sessions.Keys <= seen.sessions.Keys
    && Within(names, owner, seen, b) && b.sessions.Keys <= seen.sessions.Keys
  }

  lemma SeenAtStart(names: set<string>, owner: string, a: RowsState, b: RowsState)
    requires GoodRows(a.sessions, a.tasks) && Within(names, owner, a, b) && b.sessions.Keys <= a.sessions.Keys
    ensures SeenWithin(names, owner, a, a, b)
  {
    WithinReflexive(names, owner, a);
  }

  lemma SeenAtEnd(names: set<string>, owner: string, a: RowsState, b: RowsState)
    requires GoodRows(b.sessions, b.tasks) && Within(names, owner, a, b) && a.sessions.Keys <= b.sessions.Keys
    ensures SeenWithin(names, owner, a, b, b)
  {
    WithinReflexive(names, owner, b);
  }

  lemma SeenBefore(names: set<string>, owner: string, a: RowsState, seen: RowsState, b: RowsState)
    requires GoodRows(seen.sessions, seen.tasks)
    requires Within(names, owner, a, seen) && a.sessions.Keys <= seen.sessions.Keys
    requires Within(names, owner, seen, b) && b.sessions.Keys <= seen.sessions.Keys
    ensures SeenWithin(names, owner, a, seen, b)
  {}

  lemma SeenTouches(names: set<string>, owner: string, a: RowsState, seen: RowsState, b: RowsState)
    requires SeenWithin(names, owner, a, seen, b)
    ensures Within(names, owner, a, b)
  {
    WithinTransitive(names, owner, a, seen, b);
  }

  /** A pass saves at most its own reconcile move, and then a cleanup; the other operations save no reconcile move. */
  predicate FromPass(m: Move, saved: seq<Move>) {
    |saved| <= 2 && forall i | 0 <= i < |saved| && saved[i].Reconcile? :: i == 0 && saved[0] == m
  }

  lemma PassSaved(m: Move, saved: seq<Move>, more: seq<Move>)
    requires saved in {[], [m]}
    ensures FromPass(m, saved)
    ensures saved == [m] && (more == [] || (|more| == 1 && more[0].Clean?)) ==> FromPass(m, saved + more)
  {}

  /** What a pass over an unfinished run may make of it: nothing when nothing changes, else the saved and cleaned up pass. */
  ghost predicate PassOutcome(a: Run, m: Move, b: Run) {
    && m.Reconcile? && (forall n | n in a.steps && a.steps[n].state.Active() :: n in m.observed)
    && ((b == a && ReconcileSteps(a, m.observed, m.scheduledAt) == a.steps) || b == Apply(Apply(a, m), Clean(b.updatedAt)))
  }

  /** What reconciling a run without an error makes of it. */
  ghost predicate ReconcileOutcome(a: Run, m: Move, b: Run) {
    if a.state.Terminal() then b == Apply(a, Clean(b.updatedAt))
    else if a.state.RunDeleting? then b == a
    else if a.cancelRequested then b == Apply(a, CancelAll(b.updatedAt))
    else PassOutcome(a, m, b)
  }

  /** What a cancel request makes of a run. */
  ghost predicate CancelOutcome(a: Run, b: Run) {
    if a.state.Terminal() then b == a else b == Apply(a, RequestCancel(b.updatedAt))
  }

  lemma Unchanged(a: Run, m: Move)
    requires m.Reconcile? && (forall n | n in a.steps && a.steps[n].state.Active() :: n in m.observed)
    requires ReconcileSteps(a, m.observed, m.scheduledAt) == a.steps
    ensures PassOutcome(a, m, a)
  {}

  lemma Passed(a: Run, m: Move, at: int)
    requires m.Reconcile? && (forall n | n in a.steps && a.steps[n].state.Active() :: n in m.observed)
    ensures PassOutcome(a, m, Apply(Apply(a, m), Clean(at)))
  {}

  /** The saved pass is again planned and sound, and can be cleaned up after. */
  lemma ReconciledIsSound(run: Run, m: Move, rank: Rank)
    requires Planned(run.header, run.steps, rank) && Sound(run) && m.Reconcile? && !run.state.Ended() && !run.cancelRequested
    ensures var next := Apply(run, m);
            && Enabled(run, m) && Planned(next.header, next.steps, rank) && Sound(next) && next.header == run.header
            && Enabled(next, Clean(0)) && SessionsOf(next.steps) == SessionsOf(run.steps)
  {
    MoveKeeps(run, m, rank);
    SameSessions(run.steps, Apply(run, m).steps);
  }

  lemma SameSessions(a: Steps, b: Steps)
    requires Settled(a, b)
    ensures SessionsOf(a) == SessionsOf(b)
  {
    assert forall n | n in a :: b[n].plan.session == a[n].plan.session;
  }

  // ---- The stored rows ----

  lemma StoredName(rows: map<string, Row<Run>>, histories: Histories, name: string)
    requires RunsStored(rows, histories)
    ensures name in rows <==> name in histories
    ensures name in histories ==> |histories[name]| > 0 && rows[name] == Row(histories[name][|histories[name]| - 1], |histories[name]|)
    ensures name in histories ==> RunChain(name, histories[name]) && histories[name][0].header.name == name
  {}

  lemma StoredHeader(rows: map<string, Row<Run>>, histories: Histories, name: string)
    requires RunsStored(rows, histories) && name in rows
    ensures rows[name].value.header.name == name
  {
    var h := histories[name];
    var rank := ChainIsSound(name, h, |h| - 1);
  }

  lemma GrownName(a: Histories, b: Histories, name: string)
    requires Grown(a, b)
    ensures name in a <==> name in b
    ensures name in a && |a[name]| > 0 ==> a[name] <= b[name] && |b[name]| > 0 && b[name][0] == a[name][0]
  {}

  /** Every history goes on, and only the named one may be new. */
  ghost predicate KeptBut(name: string, a: Histories, b: Histories) {
    b.Keys <= a.Keys + {name} && forall n | n in a :: n in b && a[n] <= b[n]
  }

  lemma CreateKeeps(a: Histories, b: Histories, run: Run)
    requires b == a || (run.header.name !in a && b == a[run.header.name := [run]])
    ensures KeptBut(run.header.name, a, b) && b - {run.header.name} == a - {run.header.name}
  {}

  lemma GrownKeeps(name: string, a: Histories, b: Histories, c: Histories)
    requires Grown(b, c) && (b == a || KeptBut(name, a, b))
    ensures KeptBut(name, a, c)
  {}

  lemma KeptTwice(name: string, a: Histories, b: Histories, c: Histories)
    requires KeptBut(name, a, b) && KeptBut(name, b, c)
    ensures KeptBut(name, a, c)
  {}

  lemma EndedCanClean(run: Run)
    requires run.state.Terminal()
    ensures Enabled(run, Clean(0))
  {}
}
