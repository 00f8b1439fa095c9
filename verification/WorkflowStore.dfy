/**
 * The durable rows of workflow runs. Every call may fail, a failing write may have taken effect, and between
 * calls other controllers may save moves of their own unless this one is alone.
 */
module WorkflowStore {
  import opened Prelude
  import opened SessionTypes
  import opened DnsNames
  import opened Graphs
  import opened WorkflowRun
  import opened RunMoves
  import opened RunHistory
  import opened OptimisticRows

  /** A run's immutable agent definitions. */
  type Snapshots = map<string, Definition>

  datatype RunStoreError = NoRun | ConcurrentUpdate | StoreFailed

  ghost predicate WellPlanned(run: Run) {
    exists rank :: Planned(run.header, run.steps, rank)
  }

  /** Every step's session name is the run's name, a dash, and eight characters. */
  ghost predicate NamedFor(run: Run) {
    forall n | n in run.steps ::
      var session := run.steps[n].plan.session;
      |session| == |run.header.name| + 1 + DIGEST_LENGTH && session[..|run.header.name|] == run.header.name
  }

  /** A run as it may be stored first. */
  ghost predicate Storable(run: Run) {
    Fresh(run) && WellPlanned(run) && NamedFor(run) && run.steps != map[]
  }

  /** All the values a run's row has had: its creation, then one enabled move after another. */
  ghost predicate RunChain(name: string, history: seq<Run>) {
    && |history| > 0
    && Storable(history[0]) && history[0].header.name == name
    && forall i | 0 <= i < |history| - 1 :: Moves(history[i], history[i + 1])
  }

  type Histories = map<string, seq<Run>>

  ghost predicate Grown(a: Histories, b: Histories) {
    b.Keys == a.Keys && forall n | n in a :: a[n] <= b[n]
  }

  lemma GrownTransitive(a: Histories, b: Histories, c: Histories)
    requires Grown(a, b) && Grown(b, c)
    ensures Grown(a, c)
  {}

  /** Every value a row has had is sound, and no plan ever changes. */
  lemma {:induction false} ChainIsSound(name: string, history: seq<Run>, i: nat) returns (rank: Rank)
    requires RunChain(name, history) && i < |history|
    ensures Planned(history[i].header, history[i].steps, rank) && Sound(history[i])
    ensures history[i].header == history[0].header && Settled(history[0].steps, history[i].steps)
  {
    hide Storable, Planned, Sound, Settled, Moves;
    if i == 0 {
      rank := FirstIsSound(history[0]);
    } else {
      rank := ChainIsSound(name, history, i - 1);
      assert Moves(history[i - 1], history[i]);
      MovesKeep(history[i - 1], history[i], rank);
      SettledTransitive(history[0].steps, history[i - 1].steps, history[i].steps);
    }
  }

  lemma FirstIsSound(run: Run) returns (rank: Rank)
    requires Storable(run)
    ensures Planned(run.header, run.steps, rank) && Sound(run) && Settled(run.steps, run.steps)
  {
    rank :| Planned(run.header, run.steps, rank);
    FreshIsSound(run);
  }

  lemma ChainExtends(name: string, history: seq<Run>, run: Run)
    requires RunChain(name, history) && Moves(history[|history| - 1], run)
    ensures RunChain(name, history + [run])
  {
    hide Storable, Moves;
  }

  ghost predicate RunsStored(rows: map<string, Row<Run>>, histories: Histories) {
    && histories.Keys == rows.Keys
    && forall n | n in rows ::
         && RunChain(n, histories[n])
         && rows[n] == Row(histories[n][|histories[n]| - 1], |histories[n]|)
  }

  lemma StoredAfterMove(rows: map<string, Row<Run>>, histories: Histories, name: string, next: Run)
    requires RunsStored(rows, histories) && name in rows && Moves(rows[name].value, next)
    ensures RunsStored(rows[name := Row(next, rows[name].version + 1)], histories[name := histories[name] + [next]])
    ensures Grown(histories, histories[name := histories[name] + [next]])
  {
    hide Storable, Moves;
    ChainExtends(name, histories[name], next);
  }

  lemma StoredAfterCreate(rows: map<string, Row<Run>>, histories: Histories, run: Run)
    requires RunsStored(rows, histories) && Storable(run)
    ensures RunsStored(rows[run.header.name := Row(run, 1)], histories[run.header.name := [run]])
  {
    hide Storable, RunChain;
    OneRunChain(run);
  }

  lemma OneRunChain(run: Run)
    requires Storable(run)
    ensures RunChain(run.header.name, [run])
  {}

  lemma StoredAfterDelete(rows: map<string, Row<Run>>, histories: Histories, name: string)
    requires RunsStored(rows, histories)
    ensures RunsStored(rows - {name}, histories - {name})
  {
    hide RunChain;
  }

  /** What the row held at an earlier version is what its history says. */
  lemma StoredRow(rows: map<string, Row<Run>>, histories: Histories, name: string)
    requires RunsStored(rows, histories) && name in rows
    ensures name in histories && rows[name] == Row(histories[name][|histories[name]| - 1], |histories[name]|)
    ensures rows[name].version > 0
  {}

  lemma GrownRow(a: Histories, b: Histories, name: string)
    requires Grown(a, b) && name in a
    ensures name in b && a[name] <= b[name]
  {}

  lemma GrownReflexive(a: Histories)
    ensures Grown(a, a)
  {}

  class WorkflowRepository {
    const alone: bool
    var rows: map<string, Row<Run>>
    var snapshots: map<string, Snapshots>
    ghost var histories: Histories

    ghost predicate Valid()
      reads this
    {
      RunsStored(rows, histories) && snapshots.Keys == rows.Keys
    }

    constructor (alone: bool)
      ensures Valid() && this.alone == alone && rows == map[]
    {
      this.alone := alone;
      rows, snapshots, histories := map[], map[], map[];
    }

    /** Moves that other controllers save. */
    method Others()
      requires Valid()
      modifies `rows, `histories
      ensures Valid() && Grown(old(histories), histories)
      ensures alone ==> rows == old(rows) && histories == old(histories)
    {
      hide RunsStored, Grown, Moves, Enabled, Apply;
      GrownReflexive(histories);
      if alone { return; }
      var more: nat := *;
      while more > 0
        invariant Valid() && Grown(old(histories), histories)
        decreases more
      {
        more := more - 1;
        var name: string := *;
        var move: Move := *;
        if name in rows && Enabled(rows[name].value, move) {
          ghost var before := histories;
          Advance(name, move);
          GrownTransitive(old(histories), before, histories);
        }
      }
    }

    /** One enabled move, saved at once. */
    method Advance(name: string, move: Move)
      requires Valid() && name in rows && Enabled(rows[name].value, move)
      modifies `rows, `histories
      ensures Valid() && Grown(old(histories), histories)
    {
      hide RunsStored, Enabled, Apply;
      var next := Apply(rows[name].value, move);
      assert Moves(rows[name].value, next);
      StoredAfterMove(rows, histories, name, next);
      StoredRow(rows, histories, name);
      rows, histories := rows[name := Row(next, rows[name].version + 1)], histories[name := histories[name] + [next]];
    }

    method Get(name: string) returns (r: Result<Row<Run>, RunStoreError>)
      requires Valid()
      modifies `rows, `histories
      ensures Valid() && Grown(old(histories), histories)
      ensures alone ==> rows == old(rows) && histories == old(histories)
      ensures r.Success? ==> name in rows && r.value == rows[name]
      ensures r == Failure(NoRun) ==> name !in rows
      ensures r.Failure? ==> r.error.NoRun? || r.error.StoreFailed?
    {
      hide RunsStored, Grown;
      Others();
      var reachable: bool := *;
      if !reachable { return Failure(StoreFailed); }
      r := if name in rows then Success(rows[name]) else Failure(NoRun);
    }

    /** Every run there is. */
    method Runs() returns (r: Result<map<string, Row<Run>>, RunStoreError>)
      requires Valid()
      modifies `rows, `histories
      ensures Valid() && Grown(old(histories), histories)
      ensures alone ==> rows == old(rows) && histories == old(histories)
      ensures r.Success? ==> r.value == rows
    {
      hide RunsStored, Grown;
      Others();
      var reachable: bool := *;
      r := if reachable then Success(rows) else Failure(StoreFailed);
    }

    /** Inserts a new run together with its agent definitions; an existing name is left alone. */
    method Create(run: Run, definitions: Snapshots) returns (err: Option<RunStoreError>)
      requires Valid() && Storable(run)
      modifies `rows, `snapshots, `histories
      ensures Valid()
      ensures var name := run.header.name;
              || (rows == old(rows) && snapshots == old(snapshots) && histories == old(histories) && err.Some?)
              || (&& name !in old(rows)
                  && rows == old(rows)[name := Row(run, 1)]
                  && snapshots == old(snapshots)[name := definitions]
                  && histories == old(histories)[name := [run]])
    {
      var reachable: bool := *;
      var name := run.header.name;
      hide RunsStored, Storable;
      StoredAfterCreate(rows, histories, run);
      if !reachable || name in rows { return Some(StoreFailed); }
      rows := rows[name := Row(run, 1)];
      snapshots := snapshots[name := definitions];
      histories := histories[name := [run]];
      var acknowledged: bool := *;
      err := if acknowledged then None else Some(StoreFailed);
    }

    /** Replaces a run only when the offered version is current; the replacement must be a move of that version. */
    method Update(name: string, version: nat, run: Run) returns (err: Option<RunStoreError>)
      requires Valid() && name in rows && 0 < version <= |histories[name]|
      requires Moves(histories[name][version - 1], run)
      modifies `rows, `histories
      ensures Valid() && Grown(old(histories), histories)
      ensures err == None ==> rows[name] == Row(run, version + 1) && (alone ==> histories != old(histories))
      ensures err == Some(ConcurrentUpdate) ==> rows[name].version > version && (alone ==> histories == old(histories))
      ensures alone ==> histories == old(histories) ||
                        (|old(histories)[name]| == version && histories == old(histories)[name := old(histories)[name] + [run]])
    {
      hide RunsStored, Grown, Moves;
      ghost var h0 := histories;
      StoredRow(rows, histories, name);
      Others();
      GrownRow(h0, histories, name);
      StoredRow(rows, histories, name);
      var reachable: bool := *;
      if !reachable { return Some(StoreFailed); }
      if rows[name].version != version { return Some(ConcurrentUpdate); }
      StoredAfterMove(rows, histories, name, run);
      GrownTransitive(h0, histories, histories[name := histories[name] + [run]]);
      histories := histories[name := histories[name] + [run]];
      rows := rows[name := OptimisticRows.Update(rows[name], version, run)];
      var acknowledged: bool := *;
      err := if acknowledged then None else Some(StoreFailed);
    }

    /** One agent's immutable definition. */
    method SessionDefinition(name: string, agent: string) returns (r: Option<Definition>)
      ensures r.Some? ==> name in snapshots && agent in snapshots[name] && r.value == snapshots[name][agent]
    {
      var reachable: bool := *;
      if !reachable || name !in snapshots || agent !in snapshots[name] { return None; }
      if snapshots[name][agent].agent != agent { return None; }
      r := Some(snapshots[name][agent]);
    }

    /** Removes a run and its snapshots together. */
    method Delete(name: string) returns (err: Option<RunStoreError>)
      requires Valid()
      modifies `rows, `snapshots, `histories
      ensures Valid()
      ensures err == None ==> name in old(rows) && name !in rows
      ensures || (rows == old(rows) && snapshots == old(snapshots) && histories == old(histories) && err.Some?)
              || (rows == old(rows) - {name} && snapshots == old(snapshots) - {name} && histories == old(histories) - {name})
    {
      hide RunsStored, RunChain;
      var reachable: bool := *;
      if !reachable { return Some(StoreFailed); }
      if name !in rows { return Some(NoRun); }
      StoredAfterDelete(rows, histories, name);
      rows, snapshots, histories := rows - {name}, snapshots - {name}, histories - {name};
      var acknowledged: bool := *;
      err := if acknowledged then None else Some(StoreFailed);
    }
  }
}
