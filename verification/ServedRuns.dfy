/** What the operations of one server keep of all its runs, stated about its durable rows. */
module ServedRuns {
  import opened Prelude
  import opened Graphs
  import opened SessionTypes
  import opened SessionTasks
  import opened SessionStore
  import opened SessionControl
  import opened WorkflowRun
  import opened RunMoves
  import opened RunHistory
  import opened OptimisticRows
  import opened WorkflowStore
  import opened Accounting
  import opened RunCreation
  import opened RunObservation
  import opened RunEnding
  import opened RunSaving
  import opened Liveness
  import opened Truth
  import opened RunsEnd

  /** The durable rows of a server at one moment. */
  datatype State = State(rows: map<string, Row<Run>>, snapshots: map<string, Snapshots>, histories: Histories, now: RowsState)

  ghost predicate WellStored(s: State) {
    RunsStored(s.rows, s.histories) && s.snapshots.Keys == s.rows.Keys && GoodRows(s.now.sessions, s.now.tasks)
  }

  /** The sessions account for the run, and as long as they were truthful its history is what agents made of it. */
  ghost predicate Kept(s: State, server: Server, work: Work, truthful: bool, name: string) {
    && name in s.rows && name in s.snapshots && name in s.histories
    && Accounted(s.rows[name].value, s.snapshots[name], server, s.now.sessions, s.now.tasks)
    && (truthful ==> DoneBy(work, s.snapshots[name], server, s.histories[name]))
  }

  ghost function SessionsOfRun(s: State, name: string): set<string> {
    if name in s.histories && |s.histories[name]| > 0 then SessionsOf(s.histories[name][0].steps) else {}
  }

  /** Nothing of the run itself changed. */
  ghost predicate SameRun(a: State, b: State, name: string) {
    && (name in a.histories <==> name in b.histories) && (name in a.histories ==> b.histories[name] == a.histories[name])
    && (name in a.snapshots <==> name in b.snapshots) && (name in a.snapshots ==> b.snapshots[name] == a.snapshots[name])
  }

  lemma StoredValue(s: State, name: string) returns (rank: Rank)
    requires WellStored(s) && name in s.rows
    ensures var run := s.rows[name].value;
            && name in s.histories && RunChain(name, s.histories[name]) && run == s.histories[name][|s.histories[name]| - 1]
            && Planned(run.header, run.steps, rank) && Sound(run) && run.header.name == name
            && SessionsOf(run.steps) == SessionsOfRun(s, name)
  {
    hide Planned, Sound, RunChain, Settled, SessionsOf;
    StoredName(s.rows, s.histories, name);
    var h := s.histories[name];
    rank := ChainIsSound(name, h, |h| - 1);
    SameSessions(h[0].steps, h[|h| - 1].steps);
  }

  /** Saved moves leave the names of the run's sessions, and every other run. */
  lemma SavedLeaves(a: State, b: State, name: string, saved: seq<Move>)
    requires WellStored(a) && WellStored(b) && SavedMoves(name, a.histories, b.histories, saved)
    ensures SessionsOfRun(b, name) == SessionsOfRun(a, name) && b.histories - {name} == a.histories - {name}
    ensures name in a.rows <==> name in b.rows
  {
    hide SessionsOf, RunChain;
    StoredName(a.rows, a.histories, name);
    StoredName(b.rows, b.histories, name);
  }

  lemma RunsApart(s: State, name: string, other: string)
    requires WellStored(s) && name != other && other in s.rows
    ensures SessionsOfRun(s, name) !! SessionsOfRun(s, other)
  {
    hide SessionsOf;
    StoredName(s.rows, s.histories, other);
    if name in s.histories {
      StoredName(s.rows, s.histories, name);
      RunsShareNoSession(s.histories[name][0], s.histories[other][0]);
    }
  }

  /** Whatever touches no session of a run, and nothing of the run itself, keeps the run. */
  lemma StrangerKept(a: State, b: State, server: Server, work: Work, truthful: bool, names: set<string>, owner: string, other: string)
    requires WellStored(a) && WellStored(b) && Kept(a, server, work, truthful, other) && SameRun(a, b, other)
    requires names !! SessionsOfRun(a, other) && owner != other && Within(names, owner, a.now, b.now)
    ensures Kept(b, server, work, truthful, other)
  {
    hide Accounted, DoneBy, Within, RunsStored, Sound, Planned, RunChain, SessionsOf, GoodRows;
    var rank := StoredValue(a, other);
    StoredName(a.rows, a.histories, other);
    StoredName(b.rows, b.histories, other);
    KeyedRows(b.now);
    OtherRunsAccounted(names, owner, a.rows[other].value, a.snapshots[other], server, a.now, b.now);
  }

  /** What one run's operation does keeps every other run. */
  lemma NeighborKept(a: State, b: State, server: Server, work: Work, truthful: bool, name: string, other: string)
    requires WellStored(a) && WellStored(b) && Kept(a, server, work, truthful, other) && other != name
    requires b.histories - {name} == a.histories - {name} && b.snapshots - {name} == a.snapshots - {name}
    requires Within(SessionsOfRun(a, name), name, a.now, b.now)
    ensures Kept(b, server, work, truthful, other)
  {
    hide WellStored, Kept, Within, SessionsOfRun;
    Elsewhere(b.histories, a.histories, name, other);
    Elsewhere(b.snapshots, a.snapshots, name, other);
    KeptIsStored(a, server, work, truthful, other);
    RunsApart(a, name, other);
    StrangerKept(a, b, server, work, truthful, SessionsOfRun(a, name), name, other);
  }

  lemma KeptIsStored(s: State, server: Server, work: Work, truthful: bool, name: string)
    requires Kept(s, server, work, truthful, name)
    ensures name in s.rows && name in s.snapshots && name in s.histories
  {}

  /** Every tracked run is kept. */
  ghost predicate AllKept(s: State, server: Server, work: Work, truthful: bool, tracked: set<string>) {
    forall name | name in tracked :: Kept(s, server, work, truthful, name)
  }

  lemma KeptOne(s: State, server: Server, work: Work, truthful: bool, tracked: set<string>, name: string)
    requires AllKept(s, server, work, truthful, tracked) && name in tracked
    ensures Kept(s, server, work, truthful, name)
  {}

  lemma KeptWith(s: State, server: Server, work: Work, truthful: bool, tracked: set<string>, name: string)
    requires AllKept(s, server, work, truthful, tracked - {name})
    requires name in tracked ==> Kept(s, server, work, truthful, name)
    ensures AllKept(s, server, work, truthful, tracked)
  {
    hide Kept;
    forall other | other in tracked ensures Kept(s, server, work, truthful, other) {
      if other != name { assert other in tracked - {name}; }
    }
  }

  lemma NeighborsKept(a: State, b: State, server: Server, work: Work, before: bool, after: bool, name: string, tracked: set<string>)
    requires WellStored(a) && WellStored(b) && AllKept(a, server, work, before, tracked) && (after ==> before)
    requires b.histories - {name} == a.histories - {name} && b.snapshots - {name} == a.snapshots - {name}
    requires Within(SessionsOfRun(a, name), name, a.now, b.now)
    ensures AllKept(b, server, work, after, tracked - {name})
  {
    hide WellStored, Within, SessionsOfRun, Accounted, DoneBy;
    forall other | other in tracked - {name} ensures Kept(b, server, work, after, other) {
      NeighborKept(a, b, server, work, before, name, other);
    }
  }

  /** A session that belongs to no tracked run. */
  ghost predicate Foreign(s: State, tracked: set<string>, session: string) {
    forall name | name in tracked :: session !in SessionsOfRun(s, name)
  }

  /** Operations on such a session keep every tracked run. */
  lemma ForeignKeeps(a: State, b: State, server: Server, work: Work, truthful: bool, tracked: set<string>, session: string, owner: string)
    requires WellStored(a) && WellStored(b) && AllKept(a, server, work, truthful, tracked)
    requires b.rows == a.rows && b.histories == a.histories && b.snapshots == a.snapshots
    requires Foreign(a, tracked, session) && owner !in tracked && Within({session}, owner, a.now, b.now)
    ensures AllKept(b, server, work, truthful, tracked)
  {
    hide WellStored, Within, SessionsOfRun, Accounted, DoneBy;
    forall name | name in tracked ensures Kept(b, server, work, truthful, name) {
      StrangerKept(a, b, server, work, truthful, {session}, owner, name);
    }
  }

  /** Asking any session, of a run or not, keeps every tracked run. */
  lemma AskingKeeps(a: State, b: State, server: Server, work: Work, truthful: bool, tracked: set<string>, session: string)
    requires AllKept(a, server, work, truthful, tracked) && AskedOne(session, a.now, b.now)
    requires b.rows == a.rows && b.histories == a.histories && b.snapshots == a.snapshots
    ensures AllKept(b, server, work, truthful, tracked)
  {
    hide Accounted, DoneBy, AskedOne;
    forall name | name in tracked ensures Kept(b, server, work, truthful, name) {
      assert Kept(a, server, work, truthful, name);
      AskedAccounted(a.rows[name].value, a.snapshots[name], server, session, a.now, b.now);
    }
  }

  /** So does retrying recorded deletions. */
  lemma RetryingKeeps(a: State, b: State, server: Server, work: Work, truthful: bool, tracked: set<string>, trail: seq<RowsState>)
    requires WellStored(a) && AllKept(a, server, work, truthful, tracked)
    requires Retries(trail) && trail[0] == a.now && trail[|trail| - 1] == b.now
    requires b.rows == a.rows && b.histories == a.histories && b.snapshots == a.snapshots
    ensures AllKept(b, server, work, truthful, tracked)
  {
    hide WellStored, Accounted, DoneBy, Sound, Planned, RunChain, SessionsOfRun, SessionsOf;
    forall name | name in tracked ensures Kept(b, server, work, truthful, name) {
      assert Kept(a, server, work, truthful, name);
      var rank := StoredValue(a, name);
      RetriesKeepAccounts(a.rows[name].value, a.snapshots[name], server, trail, |trail| - 1);
    }
  }

  /** Once a kept run has ended, no session started for it has an unfinished task. */
  lemma NothingOutlives(s: State, server: Server, work: Work, truthful: bool, name: string, session: string)
    requires WellStored(s) && Kept(s, server, work, truthful, name) && s.rows[name].value.state.Ended()
    requires session in s.now.sessions && s.now.sessions[session].workflowRun == name
    ensures session in s.now.tasks && forall i | 0 <= i < |s.now.tasks[session]| :: s.now.tasks[session][i].state.Terminal()
  {
    hide Accounted, DoneBy, Sound, Planned, RunChain, RunsStored, SessionsOf;
    var rank := StoredValue(s, name);
    KeyedRows(s.now);
    assert session in s.now.tasks.Keys;
    NoWorkOutlives(s.rows[name].value, s.snapshots[name], server, s.now.sessions, s.now.tasks, session);
  }

  /** A run that was just created, with its names unused, is kept. */
  lemma CreatedKept(s: State, server: Server, work: Work, truthful: bool, name: string)
    requires WellStored(s) && name in s.rows && |s.histories[name]| == 1
    requires Accounted(s.rows[name].value, s.snapshots[name], server, s.now.sessions, s.now.tasks)
    ensures Kept(s, server, work, truthful, name)
  {
    hide Accounted, DoneBy, Storable;
    StoredName(s.rows, s.histories, name);
    assert s.histories[name] == [s.histories[name][0]];
    DoneStarts(work, s.snapshots[name], server, s.histories[name][0]);
  }

  /** A run that nothing happened to is kept. */
  lemma IdleKept(a: State, b: State, server: Server, work: Work, truthful: bool, name: string)
    requires WellStored(a) && WellStored(b) && Kept(a, server, work, truthful, name)
    requires b.histories == a.histories && b.snapshots == a.snapshots && b.now == a.now
    ensures Kept(b, server, work, truthful, name)
  {
    hide Accounted, DoneBy, RunChain, GoodRows;
    StoredName(a.rows, a.histories, name);
    StoredName(b.rows, b.histories, name);
  }

  /** An accounted run goes on being kept by the moves that were saved, when the pass behind them saw truthful sessions. */
  lemma MovedKept(a: State, b: State, server: Server, work: Work, before: bool, after: bool, name: string, m: Move, saved: seq<Move>,
                  seen: RowsState)
    requires WellStored(a) && WellStored(b) && Kept(a, server, work, before, name) && name in b.rows
    requires b.snapshots == a.snapshots && SavedMoves(name, a.histories, b.histories, saved) && FromPass(m, saved)
    requires Accounted(b.rows[name].value, b.snapshots[name], server, b.now.sessions, b.now.tasks)
    requires after ==> before && (m.Reconcile? ==> Truthful(work, seen))
    requires m.Reconcile? ==>
               && Observing(a.rows[name].value, m, seen)
               && Accounted(a.rows[name].value, a.snapshots[name], server, seen.sessions, seen.tasks)
    ensures Kept(b, server, work, after, name)
  {
    hide Accounted, DoneBy, Continues, Observing, Truthful, RunChain, FromPass, GoodRows;
    StoredName(a.rows, a.histories, name);
    StoredName(b.rows, b.histories, name);
    if after { DoneContinues(work, a.snapshots[name], server, name, a.histories[name], b.histories[name], m, saved, seen); }
  }

  /** A tracked run is accounted for under its own name, and that is not blank. */
  lemma KeptIsAccounted(s: State, server: Server, work: Work, truthful: bool, name: string)
    requires WellStored(s) && Kept(s, server, work, truthful, name)
    ensures s.rows[name].value.header.name == name && name != ""
    ensures Accounted(s.rows[name].value, s.snapshots[name], server, s.now.sessions, s.now.tasks)
  {
    hide DoneBy, RunsStored, RunChain, SessionsOf, Planned, Sound, StepAccounted;
    var rank := StoredValue(s, name);
  }

  // ---- The session interface ----

  /** No run has this session. */
  predicate OfNoRun(rows: map<string, Row<Run>>, session: string) {
    forall name | name in rows :: forall n | n in rows[name].value.steps :: rows[name].value.steps[n].plan.session != session
  }

  lemma OfNoRunIsForeign(s: State, server: Server, work: Work, truthful: bool, tracked: set<string>, session: string)
    requires WellStored(s) && AllKept(s, server, work, truthful, tracked) && OfNoRun(s.rows, session)
    ensures Foreign(s, tracked, session)
  {
    hide Accounted, DoneBy, WellStored, RunChain, Planned, Sound;
    forall name | name in tracked ensures session !in SessionsOfRun(s, name) {
      assert Kept(s, server, work, truthful, name);
      var rank := StoredValue(s, name);
    }
  }

  /** A session that no run started. */
  lemma CreatedWithin(session: string, a: RowsState, b: RowsState)
    requires GoodRows(a.sessions, a.tasks) && GoodRows(b.sessions, b.tasks)
    requires OthersKept(session, a.sessions, a.tasks, b.sessions, b.tasks)
    requires session in a.sessions ==> b == a
    requires session in b.sessions && session !in a.sessions ==> b.sessions[session].workflowRun == ""
    ensures Within({session}, "", a, b)
  {
    OneIsWithin({session}, "", a, b, session);
  }

  lemma ContinuedWithin(session: string, a: RowsState, b: RowsState)
    requires GoodRows(a.sessions, a.tasks) && GoodRows(b.sessions, b.tasks) && b.sessions == a.sessions
    requires OthersKept(session, a.sessions, a.tasks, b.sessions, b.tasks)
    requires session in a.sessions ==> HistoryGrows(a.tasks[session], b.tasks[session])
    ensures Within({session}, "", a, b)
  {
    OneIsWithin({session}, "", a, b, session);
  }

  // ---- How far the runs are from their end ----

  /** A pass brought the run nearer to its end, unless it had ended. */
  predicate Nearer(before: nat, after: nat) {
    after < before || after == before == 0
  }

  /** A pass without an error over finished sessions does. */
  lemma PassIsNearer(a: State, b: State, server: Server, name: string, m: Move, seen: RowsState)
    requires WellStored(a) && name in a.rows && name in a.snapshots && name in b.rows
    requires ReconcileOutcome(a.rows[name].value, m, b.rows[name].value)
    requires var run := a.rows[name].value;
             m.Reconcile? ==>
               && Observing(run, m, seen) && AllFinished(run, seen)
               && Accounted(run, a.snapshots[name], server, seen.sessions, seen.tasks)
    ensures Nearer(Remaining(a.rows[name].value), Remaining(b.rows[name].value))
  {
    hide RunsStored, RunChain, Planned, Sound, Observing, Accounted, AllFinished, Remaining, WorkLeft, SessionsOf,
         PassOutcome, Prompt;
    var run := a.rows[name].value;
    var rank := StoredValue(a, name);
    StoredName(a.rows, a.histories, name);
    var h := a.histories[name];
    ChainLeavesWork(name, h, |h| - 1);
    if !run.state.Ended() && !run.cancelRequested {
      AskedAll(run, m, b.rows[name].value);
      AccountedAreDistinct(run, a.snapshots[name], server, seen.sessions, seen.tasks);
      ObservedIsPrompt(run, m, seen);
    }
    OutcomeAdvances(run, m, b.rows[name].value, rank);
  }

  lemma AccountedAreDistinct(run: Run, defs: Snapshots, server: Server, sessions: Sessions, tasks: Tasks)
    requires Accounted(run, defs, server, sessions, tasks)
    ensures DistinctSessions(run.steps)
  {}

  lemma AskedAll(a: Run, m: Move, b: Run)
    requires ReconcileOutcome(a, m, b) && !a.state.Ended() && !a.cancelRequested
    ensures m.Reconcile? && Enabled(a, m) && forall n | n in a.steps && a.steps[n].state.Active() :: n in m.observed
  {}

  // ---- Sequences of passes ----

  /** One call of reconcile: what it found and left, the rows as it saw them, its move, and what it saved. */
  datatype Pass = Pass(name: string, before: State, m: Move, saved: seq<Move>, seen: RowsState, after: State)

  /** The pass saved its own move at most, of the run it found, after seeing what it recorded between its start and its end. */
  ghost predicate IsPass(p: Pass) {
    && FromPass(p.m, p.saved) && SavedMoves(p.name, p.before.histories, p.after.histories, p.saved)
    && p.after.snapshots == p.before.snapshots && p.after.rows.Keys == p.before.rows.Keys
    && SeenWithin(SessionsOfRun(p.before, p.name), p.name, p.before.now, p.seen, p.after.now)
    && (p.m.Reconcile? ==> p.name in p.before.rows && Observing(p.before.rows[p.name].value, p.m, p.seen))
  }

  /** The passes lead from a to b. */
  ghost predicate Passes(a: State, b: State, passes: seq<Pass>)
    decreases |passes|
  {
    if passes == [] then a == b
    else
      var last := passes[|passes| - 1];
      IsPass(last) && last.after == b && Passes(a, last.before, passes[..|passes| - 1])
  }

  lemma NoPassYet(a: State)
    ensures Passes(a, a, [])
  {}

  lemma OnePassMore(a: State, passes: seq<Pass>, p: Pass)
    requires Passes(a, p.before, passes) && IsPass(p)
    ensures Passes(a, p.after, passes + [p])
  {
    assert (passes + [p])[..|passes|] == passes;
  }

  lemma {:induction false} MorePasses(a: State, b: State, c: State, x: seq<Pass>, y: seq<Pass>)
    requires Passes(a, b, x) && Passes(b, c, y)
    ensures Passes(a, c, x + y)
    decreases |y|
  {
    hide IsPass;
    if y == [] {
      assert x + y == x;
    } else {
      var last := y[|y| - 1];
      MorePasses(a, b, last.before, x, y[..|y| - 1]);
      assert (x + y)[..|x + y| - 1] == x + y[..|y| - 1];
    }
  }

  /** The sessions of the run that the pass was to advance had finished when it saw them. */
  ghost predicate SawFinished(p: Pass) {
    p.m.Reconcile? && p.name in p.before.rows ==> AllFinished(p.before.rows[p.name].value, p.seen)
  }

  ghost predicate AllSawFinished(passes: seq<Pass>, tracked: set<string>) {
    forall p | p in passes && p.name in tracked :: SawFinished(p)
  }

  /** The pass saw only sessions whose finished tasks say what the agents make of them. */
  ghost predicate SawTruth(work: Work, p: Pass) {
    p.m.Reconcile? ==> Truthful(work, p.seen)
  }

  ghost predicate AllSawTruth(work: Work, passes: seq<Pass>) {
    forall p | p in passes :: SawTruth(work, p)
  }

  lemma NothingSaw(work: Work, tracked: set<string>)
    ensures AllSawTruth(work, []) && AllSawFinished([], tracked)
  {}

  lemma OneMoreTruth(work: Work, passes: seq<Pass>, p: Pass)
    ensures AllSawTruth(work, passes + [p]) <==> AllSawTruth(work, passes) && SawTruth(work, p)
  {
    hide SawTruth;
    assert p in passes + [p] && forall q | q in passes :: q in passes + [p];
  }

  lemma OneMoreSaw(passes: seq<Pass>, p: Pass, tracked: set<string>)
    ensures AllSawFinished(passes + [p], tracked) <==> AllSawFinished(passes, tracked) && (p.name in tracked ==> SawFinished(p))
  {
    hide SawTruth, SawFinished;
    assert p in passes + [p] && forall q | q in passes :: q in passes + [p];
  }

  lemma MoreSaw(work: Work, x: seq<Pass>, y: seq<Pass>, tracked: set<string>)
    ensures AllSawTruth(work, x + y) <==> AllSawTruth(work, x) && AllSawTruth(work, y)
    ensures AllSawFinished(x + y, tracked) <==> AllSawFinished(x, tracked) && AllSawFinished(y, tracked)
  {
    hide SawTruth, SawFinished;
    assert forall q | q in x || q in y :: q in x + y;
  }

  // ---- Which runs are tracked ----

  /** The runs that are tracked after a call: those that were and are still there, and one created with its names unused. */
  ghost function TrackedAfter(tracked: set<string>, a: State, b: State): set<string> {
    (set n | n in tracked && n in b.rows)
    + (set n | n in b.rows && n !in a.rows && n in b.histories && |b.histories[n]| > 0 && Unused(b.histories[n][0], a.now.sessions))
  }

  lemma SameTracked(tracked: set<string>, a: State, b: State)
    requires b.rows.Keys == a.rows.Keys && tracked <= a.rows.Keys
    ensures TrackedAfter(tracked, a, b) == tracked
  {}

  lemma CreatedTracked(tracked: set<string>, a: State, b: State, name: string)
    requires WellStored(a) && WellStored(b) && tracked <= a.rows.Keys
    requires b.histories - {name} == a.histories - {name} && (name in a.histories ==> name in b.histories)
    ensures var created := name in b.histories && name !in a.histories && Unused(b.histories[name][0], a.now.sessions);
            TrackedAfter(tracked, a, b) == tracked + (if created then {name} else {})
  {
    hide Unused, RunChain, GoodRows;
    forall n | n != name ensures n in b.rows <==> n in a.rows {
      Elsewhere(b.histories, a.histories, name, n);
      StoredName(a.rows, a.histories, n);
      StoredName(b.rows, b.histories, n);
    }
    StoredName(a.rows, a.histories, name);
    StoredName(b.rows, b.histories, name);
  }

  lemma DeletedTracked(tracked: set<string>, a: State, b: State, name: string)
    requires WellStored(a) && WellStored(b) && tracked <= a.rows.Keys
    requires b.histories - {name} == a.histories - {name} && (name in b.histories ==> name in a.histories)
    ensures TrackedAfter(tracked, a, b) == tracked - (if name in b.rows then {} else {name})
  {
    hide Unused, RunChain, GoodRows;
    forall n | n != name ensures n in b.rows <==> n in a.rows {
      Elsewhere(b.histories, a.histories, name, n);
      StoredName(a.rows, a.histories, n);
      StoredName(b.rows, b.histories, n);
    }
    StoredName(a.rows, a.histories, name);
    StoredName(b.rows, b.histories, name);
  }

  /** The runs that are tracked after a sequence of calls. */
  ghost function TrackedAlong(tracked: set<string>, trail: seq<State>): set<string> {
    if |trail| <= 1 then tracked
    else TrackedAfter(TrackedAlong(tracked, trail[..|trail| - 1]), trail[|trail| - 2], trail[|trail| - 1])
  }

  lemma OneMoreState(tracked: set<string>, trail: seq<State>, next: State)
    requires |trail| > 0
    ensures TrackedAlong(tracked, trail + [next]) == TrackedAfter(TrackedAlong(tracked, trail), trail[|trail| - 1], next)
  {
    assert (trail + [next])[..|trail|] == trail;
  }

  lemma StartedHistories(name: string, a: Histories, b: Histories)
    requires KeptBut(name, a, b)
    ensures name in a ==> name in b
  {}

  /** No session started for a tracked run that has ended has an unfinished task. */
  ghost predicate NoOrphans(s: State, tracked: set<string>) {
    forall name, session | name in tracked && name in s.rows && s.rows[name].value.state.Ended()
                           && session in s.now.sessions && s.now.sessions[session].workflowRun == name ::
      session in s.now.tasks && forall i | 0 <= i < |s.now.tasks[session]| :: s.now.tasks[session][i].state.Terminal()
  }

  /** In no state of the trail does work outlive its run. */
  ghost predicate NeverOrphans(tracked: set<string>, trail: seq<State>) {
    forall i | 0 <= i < |trail| :: NoOrphans(trail[i], TrackedAlong(tracked, trail[..i + 1]))
  }

  lemma StillNoOrphans(tracked: set<string>, trail: seq<State>, next: State)
    requires NeverOrphans(tracked, trail) && NoOrphans(next, TrackedAlong(tracked, trail + [next]))
    ensures NeverOrphans(tracked, trail + [next])
  {
    hide NoOrphans, TrackedAlong;
    var longer := trail + [next];
    forall i | 0 <= i < |longer| ensures NoOrphans(longer[i], TrackedAlong(tracked, longer[..i + 1])) {
      if i < |trail| {
        assert longer[..i + 1] == trail[..i + 1];
      } else {
        assert longer[..i + 1] == longer;
      }
    }
  }

  lemma KeptHaveNoOrphans(s: State, server: Server, work: Work, truthful: bool, tracked: set<string>)
    requires WellStored(s) && AllKept(s, server, work, truthful, tracked)
    ensures NoOrphans(s, tracked)
  {
    hide WellStored, Accounted, DoneBy;
    forall name, session | name in tracked && name in s.rows && s.rows[name].value.state.Ended()
                           && session in s.now.sessions && s.now.sessions[session].workflowRun == name
      ensures session in s.now.tasks && forall i | 0 <= i < |s.now.tasks[session]| :: s.now.tasks[session][i].state.Terminal()
    {
      NothingOutlives(s, server, work, truthful, name, session);
    }
  }

  type Rows = map<string, Row<Run>>

  /** Every tracked run is i passes nearer to its end, or has ended. */
  ghost predicate Closer(a: Rows, b: Rows, tracked: set<string>, i: nat) {
    forall name | name in tracked ::
      && name in a && name in b
      && (Remaining(b[name].value) + i <= Remaining(a[name].value) || Remaining(b[name].value) == 0)
  }

  /** Every tracked run but those that are left is nearer to its end; those are as they were. */
  ghost predicate Advanced(a: Rows, b: Rows, tracked: set<string>, left: set<string>) {
    forall name | name in tracked ::
      && name in a && name in b
      && (if name in left then b[name].value == a[name].value
          else Nearer(Remaining(a[name].value), Remaining(b[name].value)))
  }

  lemma TrackedAreStored(s: State, server: Server, work: Work, truthful: bool, tracked: set<string>)
    requires AllKept(s, server, work, truthful, tracked)
    ensures tracked <= s.rows.Keys
  {
    hide Accounted, DoneBy;
    forall name | name in tracked ensures name in s.rows {
      assert Kept(s, server, work, truthful, name);
    }
  }

  lemma NoneAdvanced(a: Rows, tracked: set<string>)
    requires tracked <= a.Keys
    ensures Advanced(a, a, tracked, a.Keys) && Closer(a, a, tracked, 0)
  {}

  /** A run that has not ended, or has a completed step whose session is still to be cleaned up. */
  ghost predicate NeedsPass(run: Run) {
    && !run.state.RunDeleting?
    && (run.state.Terminal() ==>
          exists n :: n in run.steps && run.steps[n].state.Completed? && !run.steps[n].plan.publishable && !run.steps[n].cleaned)
  }

  /** There was a pass for every run outside the left ones that needed one. */
  ghost predicate Covered(rows: Rows, left: set<string>, passes: seq<Pass>) {
    forall name | name in rows && name !in left && NeedsPass(rows[name].value) :: exists i :: 0 <= i < |passes| && passes[i].name == name
  }

  lemma SkippedIsCovered(rows: Rows, left: set<string>, passes: seq<Pass>, name: string)
    requires Covered(rows, left, passes) && name in rows
    requires (rows[name].value.state.Terminal() && !ToBeCleaned(rows[name].value)) || rows[name].value.state.RunDeleting?
    ensures Covered(rows, left - {name}, passes)
  {}

  lemma OneMoreCovered(rows: Rows, left: set<string>, passes: seq<Pass>, p: Pass)
    requires Covered(rows, left, passes)
    ensures Covered(rows, left - {p.name}, passes + [p])
  {
    hide NeedsPass;
    forall name | name in rows && name !in left - {p.name} && NeedsPass(rows[name].value)
      ensures exists i :: 0 <= i < |passes + [p]| && (passes + [p])[i].name == name
    {
      if name == p.name {
        assert (passes + [p])[|passes|].name == name;
      } else {
        var i :| 0 <= i < |passes| && passes[i].name == name;
        assert (passes + [p])[i].name == name;
      }
    }
  }

  /** What the passes so far have done to the runs, when all succeeded and saw finished sessions. */
  ghost predicate SoFar(a: Rows, b: Rows, tracked: set<string>, left: set<string>, ok: bool, passes: seq<Pass>) {
    ok && AllSawFinished(passes, tracked) ==> Advanced(a, b, tracked, left)
  }

  lemma EndedIsSkipped(a: Rows, b: Rows, tracked: set<string>, left: set<string>, ok: bool, passes: seq<Pass>, name: string)
    requires SoFar(a, b, tracked, left, ok, passes) && name in left && name in a && a[name].value.state.Ended()
    ensures SoFar(a, b, tracked, left - {name}, ok, passes)
  {
    hide AllSawFinished;
  }

  lemma OneAdvanced(a: Rows, tracked: set<string>, left: set<string>, ok: bool, passes: seq<Pass>, p: Pass, done: bool)
    requires WellStored(p.before) && WellStored(p.after) && IsPass(p) && p.name in left && tracked <= p.after.rows.Keys
    requires SoFar(a, p.before.rows, tracked, left, ok, passes)
    requires done && p.name in tracked && SawFinished(p) ==>
               && p.name in p.before.rows
               && Nearer(Remaining(p.before.rows[p.name].value), Remaining(p.after.rows[p.name].value))
    ensures SoFar(a, p.after.rows, tracked, left - {p.name}, ok && done, passes + [p])
  {
    hide Remaining, RunChain, GoodRows, FromPass, SeenWithin, Observing, AllSawFinished, SawFinished, SawTruth, AllSawTruth;
    OneMoreSaw(passes, p, tracked);
    if ok && done && AllSawFinished(passes + [p], tracked) {
      forall other | other in tracked && other != p.name ensures p.after.rows[other].value == p.before.rows[other].value {
        Elsewhere(p.after.histories, p.before.histories, p.name, other);
        StoredName(p.before.rows, p.before.histories, other);
        StoredName(p.after.rows, p.after.histories, other);
      }
    }
  }

  lemma RoundIsCloser(a: Rows, b: Rows, c: Rows, tracked: set<string>, i: nat)
    requires Closer(a, b, tracked, i) && Advanced(b, c, tracked, {})
    ensures Closer(a, c, tracked, i + 1)
  {
    hide Remaining;
  }

  /** Enough rounds end a run: one more than it has steps. */
  lemma EnoughRounds(a: Rows, b: Rows, tracked: set<string>, rounds: nat)
    requires Closer(a, b, tracked, rounds)
    ensures forall name | name in tracked && |a[name].value.steps| < rounds :: b[name].value.state.Ended()
  {
    hide PendingSteps;
    forall name | name in tracked && |a[name].value.steps| < rounds ensures b[name].value.state.Ended() {
      AtMostStepsRemain(a[name].value);
    }
  }
}
