/**
 * The external state behind sessions: their SQL rows and their runtime resources. Every call may fail; a failing
 * write may still have taken effect, so stopping after a failed call covers a crash after any effect.
 */
module SessionStore {
  import opened Prelude
  import opened SessionTypes
  import opened SessionTasks
  import opened DnsNames

  datatype StoreError = NotFound | Conflict | ActiveTask | Unavailable

  type Sessions = map<string, Record>
  type Tasks = map<string, seq<Task>>

  /**
   * What the rows keep: sessions have label names and are about what they were started to do, tasks belong to a session, have
   * distinct ids, and only the latest may be unfinished.
   */
  ghost predicate GoodRows(sessions: Sessions, tasks: Tasks) {
    && tasks.Keys == sessions.Keys
    && forall s | s in sessions :: GoodHistory(tasks[s]) && AsIntended(sessions[s], tasks[s][0]) && sessions[s].name == s && IsLabel(s, SESSION_NAME_MAX)
  }

  class Repository {
    var sessions: Sessions
    var tasks: Tasks

    ghost predicate Valid()
      reads this
    {
      GoodRows(sessions, tasks)
    }

    constructor ()
      ensures Valid() && sessions == map[] && tasks == map[]
    {
      sessions, tasks := map[], map[];
    }

    /** Inserts a session with its first task in one transaction. */
    method Create(record: Record, task: Task) returns (err: Option<StoreError>)
      requires Valid() && GoodHistory([task]) && AsIntended(record, task) && IsLabel(record.name, SESSION_NAME_MAX)
      modifies this
      ensures Valid()
      ensures err == Some(Conflict) || err == Some(Unavailable) || err == None
      ensures err == None ==> record.name !in old(sessions)
      ensures err == Some(Conflict) ==> record.name in old(sessions)
      ensures var done := sessions == old(sessions)[record.name := record] && tasks == old(tasks)[record.name := [task]];
              var same := sessions == old(sessions) && tasks == old(tasks);
              match err
              case None => done
              case Some(Conflict) => same
              case Some(_) => same || (record.name !in old(sessions) && done)
    {
      var reachable: bool := *;
      if !reachable { return Some(Unavailable); }
      if record.name in sessions { return Some(Conflict); }
      sessions := sessions[record.name := record];
      tasks := tasks[record.name := [task]];
      var acknowledged: bool := *;
      err := if acknowledged then None else Some(Unavailable);
    }

    method Get(name: string) returns (r: Result<Record, StoreError>)
      ensures r.Success? ==> name in sessions && r.value == sessions[name]
      ensures r == Failure(NotFound) ==> name !in sessions
      ensures r.Failure? ==> r.error.NotFound? || r.error.Unavailable?
    {
      var reachable: bool := *;
      if !reachable { return Failure(Unavailable); }
      r := if name in sessions then Success(sessions[name]) else Failure(NotFound);
    }

    /** Adds a task unless one is unfinished; the unique index on unfinished tasks backs the check. */
    method AddTask(name: string, task: Task) returns (err: Option<StoreError>)
      requires Valid() && GoodTask(task)
      modifies this
      ensures Valid() && sessions == old(sessions)
      ensures err == None ==> name in old(sessions) && tasks == old(tasks)[name := old(tasks)[name] + [task]]
      ensures err.Some? && err.value != Unavailable ==> tasks == old(tasks)
      ensures err == Some(NotFound) ==> name !in sessions
      ensures err == Some(ActiveTask) ==> name in sessions && !Latest(old(tasks)[name]).state.Terminal()
      ensures err != Some(Conflict)
      ensures tasks == old(tasks) ||
              (&& name in old(sessions) && Latest(old(tasks)[name]).state.Terminal() && !HasTask(old(tasks)[name], task.id)
               && tasks == old(tasks)[name := old(tasks)[name] + [task]])
    {
      hide IsLabel, GoodTask, AsIntended;
      var reachable: bool := *;
      if !reachable { return Some(Unavailable); }
      if name !in sessions { return Some(NotFound); }
      var history := tasks[name];
      if !Latest(history).state.Terminal() { return Some(ActiveTask); }
      if HasTask(history, task.id) { return Some(Unavailable); }
      tasks := tasks[name := history + [task]];
      var acknowledged: bool := *;
      err := if acknowledged then None else Some(Unavailable);
    }

    method LatestTask(name: string) returns (r: Result<Task, StoreError>)
      requires Valid()
      ensures r.Success? ==> name in sessions && r.value == Latest(tasks[name])
      ensures r == Failure(NotFound) ==> name !in sessions
      ensures r.Failure? ==> r.error.NotFound? || r.error.Unavailable?
    {
      var reachable: bool := *;
      if !reachable { return Failure(Unavailable); }
      r := if name in tasks then Success(Latest(tasks[name])) else Failure(NotFound);
    }

    /** Replaces the latest task's progress. */
    method UpdateTask(name: string, task: Task) returns (err: Option<StoreError>)
      requires Valid()
      requires name in sessions && TaskMoves(Latest(tasks[name]), task) && GoodTask(task)
      modifies this
      ensures Valid() && sessions == old(sessions)
      ensures var done := tasks == old(tasks)[name := Replaced(old(tasks)[name], task)];
              done || (err.Some? && tasks == old(tasks))
      ensures err.Some? ==> err.value == Unavailable
    {
      hide AsIntended, IsLabel, GoodTask;
      var reachable: bool := *;
      if !reachable { return Some(Unavailable); }
      if |tasks[name]| == 1 { StillIntended(sessions[name], sessions[name].deletion, tasks[name][0], task); }
      tasks := tasks[name := Replaced(tasks[name], task)];
      var acknowledged: bool := *;
      err := if acknowledged then None else Some(Unavailable);
    }

    /** Records the deletion intent; a different intent already recorded is a conflict. */
    method BeginDeletion(name: string, storage: bool) returns (err: Option<StoreError>)
      requires Valid()
      modifies this
      ensures Valid() && tasks == old(tasks)
      ensures err == None ==> name in old(sessions) && sessions == old(sessions)[name := old(sessions)[name].(deletion := Some(storage))]
      ensures err == Some(Conflict) ==> name in old(sessions) && old(sessions)[name].deletion == Some(!storage)
      ensures err == Some(NotFound) ==> name !in old(sessions)
      ensures err.Some? && err.value != Unavailable ==> sessions == old(sessions)
      ensures sessions == old(sessions) ||
              (&& name in old(sessions) && old(sessions)[name].deletion != Some(!storage)
               && sessions == old(sessions)[name := old(sessions)[name].(deletion := Some(storage))])
    {
      hide AsIntended, IsLabel, GoodTask;
      var reachable: bool := *;
      if !reachable { return Some(Unavailable); }
      if name !in sessions { return Some(NotFound); }
      if sessions[name].deletion == Some(!storage) { return Some(Conflict); }
      StillIntended(sessions[name], Some(storage), tasks[name][0], tasks[name][0]);
      sessions := sessions[name := sessions[name].(deletion := Some(storage))];
      var acknowledged: bool := *;
      err := if acknowledged then None else Some(Unavailable);
    }

    /** Removes a destroyed session with its tasks, or clears the intent of a finished compute cleanup. */
    method FinishDeletion(name: string, remove: bool) returns (err: Option<StoreError>)
      requires Valid()
      modifies this
      ensures Valid()
      ensures var removed := sessions == old(sessions) - {name} && tasks == old(tasks) - {name};
              var cleared := name in old(sessions) && sessions == old(sessions)[name := old(sessions)[name].(deletion := None)] && tasks == old(tasks);
              (if remove then removed else cleared) || (err.Some? && sessions == old(sessions) && tasks == old(tasks))
      ensures err == None ==> name in old(sessions)
      ensures err == Some(NotFound) ==> name !in old(sessions)
      ensures err.Some? ==> err.value.NotFound? || err.value.Unavailable?
    {
      hide AsIntended, IsLabel, GoodTask;
      var reachable: bool := *;
      if !reachable { return Some(Unavailable); }
      if name !in sessions { return Some(NotFound); }
      StillIntended(sessions[name], None, tasks[name][0], tasks[name][0]);
      if remove {
        sessions, tasks := sessions - {name}, tasks - {name};
      } else {
        sessions := sessions[name := sessions[name].(deletion := None)];
      }
      var acknowledged: bool := *;
      err := if acknowledged then None else Some(Unavailable);
    }

    /** The sessions with unfinished cleanup. */
    method Deleting() returns (r: Result<set<string>, StoreError>)
      ensures r.Success? ==> r.value == set s | s in sessions && sessions[s].deletion.Some?
    {
      var reachable: bool := *;
      if !reachable { return Failure(Unavailable); }
      r := Success(set s | s in sessions && sessions[s].deletion.Some?);
    }
  }

  function Replaced(history: seq<Task>, task: Task): seq<Task>
    requires |history| > 0
  {
    history[|history| - 1 := task]
  }

  /** Jobs by session and task, the sessions with a publisher Job, and the persistent claims. */
  class Runtime {
    const scope: string
    var jobs: map<string, set<string>>
    var publishers: set<string>
    var claims: set<string>

    constructor (scope: string)
      ensures this.scope == scope && jobs == map[] && publishers == {} && claims == {}
    {
      this.scope := scope;
      jobs, publishers, claims := map[], {}, {};
    }

    function Jobs(name: string): set<string>
      reads this
    {
      JobsOf(jobs, name)
    }

    /**
     * Applies a task's resources: as an initial task the claim of persistent storage first, and the Job last. The task
     * and its session must already be recorded as they are to be run, and the task unfinished.
     */
    method Start(ghost rows: Repository, request: TaskRequest) returns (ok: bool)
      requires rows.Valid() && request.session in rows.sessions
      requires RunsTask(request, rows.sessions[request.session], Latest(rows.tasks[request.session]))
      requires !Latest(rows.tasks[request.session]).state.Terminal()
      modifies `jobs, `claims
      ensures var name, claiming := request.session, !request.resume && request.storage.Persistent?;
              && jobs - {name} == old(jobs) - {name}
              && old(Jobs(name)) <= Jobs(name) <= old(Jobs(name)) + {request.task}
              && old(claims) <= claims <= old(claims) + (if request.storage.Persistent? then {name} else {})
              && (Jobs(name) != old(Jobs(name)) && claiming ==> name in claims)
              && (!claiming ==> claims == old(claims))
              && (ok ==> request.task in Jobs(name) && (claiming ==> name in claims))
    {
      hide RunsTask;
      var name := request.session;
      if !request.resume && request.storage.Persistent? {
        var claimed: bool := *;
        if !claimed { return false; }
        claims := claims + {name};
      }
      var created: bool := *;
      if !created { return false; }
      jobs := jobs[name := Jobs(name) + {request.task}];
      ok := *;
    }

    /** What the runtime currently shows of a task; a task without a Job cannot be observed. */
    method Observe(name: string, task: string) returns (r: Option<TaskObservation>)
      ensures r.Some? ==> task in Jobs(name)
    {
      var reachable: bool := *;
      if !reachable || task !in Jobs(name) { return None; }
      var o: TaskObservation := *;
      r := Some(o);
    }

    /**
     * Removes every Job labelled with a session, its publisher Job among them whatever that is doing, and with storage
     * its claim. The deletion must be durably intended and the latest task durably finished.
     */
    method Delete(ghost rows: Repository, name: string, storage: bool) returns (ok: bool)
      requires rows.Valid() && name in rows.sessions
      requires rows.sessions[name].deletion == Some(storage)
      requires Latest(rows.tasks[name]).state.Terminal()
      modifies this
      ensures jobs - {name} == old(jobs) - {name}
      ensures Jobs(name) <= old(Jobs(name))
      ensures publishers <= old(publishers) && old(publishers) - {name} <= publishers
      ensures old(claims) - (if storage then {name} else {}) <= claims <= old(claims)
      ensures ok ==> Jobs(name) == {} && name !in publishers && (storage ==> name !in claims)
    {
      hide GoodRows;
      var kept: set<string> := *;
      jobs := jobs[name := Jobs(name) * kept];
      var unpublished: bool := *;
      if unpublished { publishers := publishers - {name}; }
      var released: bool := *;
      if storage && released { claims := claims - {name}; }
      var acknowledged: bool := *;
      ok := Jobs(name) == {} && name !in publishers && (storage ==> name !in claims) && acknowledged;
    }
  }

  function JobsOf(jobs: map<string, set<string>>, name: string): set<string> {
    if name in jobs then jobs[name] else {}
  }

  predicate HasTask(history: seq<Task>, id: string) {
    exists i :: 0 <= i < |history| && history[i].id == id
  }

  /** Runtime resources exist only for recorded sessions: Jobs for recorded tasks, claims for persistent storage. */
  ghost predicate Backed(sessions: Sessions, tasks: Tasks, jobs: map<string, set<string>>, claims: set<string>) {
    && tasks.Keys == sessions.Keys
    && (forall s, t | t in JobsOf(jobs, s) :: s in sessions && HasTask(tasks[s], t))
    && (forall s | s in claims :: s in sessions && sessions[s].definition.storage.Persistent?)
  }

  /** A persistent session must have its claim from its first task's Job on until someone has asked for its storage to go. */
  predicate NeedsClaim(record: Record, first: Task, jobs: set<string>) {
    && record.definition.storage.Persistent? && record.deletion != Some(true)
    && (first.id in jobs || (first.state.Terminal() && !first.state.TaskCanceled?))
  }

  ghost predicate Claimed(sessions: Sessions, tasks: Tasks, jobs: map<string, set<string>>, claims: set<string>) {
    forall s | s in sessions && s in tasks && |tasks[s]| > 0 && NeedsClaim(sessions[s], tasks[s][0], JobsOf(jobs, s)) :: s in claims
  }

  /** Rows only move forward: a session keeps its identity, its tasks keep theirs, and finished tasks do not change. */
  ghost predicate RowsMove(s0: Sessions, t0: Tasks, s1: Sessions, t1: Tasks) {
    && t0.Keys == s0.Keys && t1.Keys == s1.Keys
    && forall s | s in s0 && s in s1 ::
         s1[s] == s0[s].(deletion := s1[s].deletion) && HistoryGrows(t0[s], t1[s])
  }

  lemma GrownHasTask(a: seq<Task>, b: seq<Task>, id: string)
    requires HistoryGrows(a, b) && HasTask(a, id)
    ensures HasTask(b, id)
  {
    var i :| 0 <= i < |a| && a[i].id == id;
    assert TaskMoves(a[i], b[i]);
    assert b[i].id == id;
  }

  /** Rows that only move forward keep the resources backed. */
  lemma BackedByMovedRows(s0: Sessions, t0: Tasks, s1: Sessions, t1: Tasks, jobs: map<string, set<string>>, claims: set<string>)
    requires Backed(s0, t0, jobs, claims) && RowsMove(s0, t0, s1, t1) && s0.Keys <= s1.Keys
    ensures Backed(s1, t1, jobs, claims)
  {
    forall s, t | t in JobsOf(jobs, s) ensures s in s1 && HasTask(t1[s], t) {
      GrownHasTask(t0[s], t1[s], t);
    }
  }

  lemma Elsewhere<V>(a: map<string, V>, b: map<string, V>, name: string, s: string)
    requires a - {name} == b - {name} && s != name
    ensures (s in a <==> s in b) && (s in a ==> a[s] == b[s])
  {
    assert s in a <==> s in a - {name};
    assert s in b <==> s in b - {name};
    assert s in a ==> a[s] == (a - {name})[s] == (b - {name})[s] == b[s];
  }

  /** Nothing but the named session's row and tasks changed, and no other session appeared or vanished. */
  ghost predicate OthersKept(name: string, s0: Sessions, t0: Tasks, s1: Sessions, t1: Tasks) {
    s1 - {name} == s0 - {name} && t1 - {name} == t0 - {name}
  }

  lemma OtherKept(name: string, s0: Sessions, t0: Tasks, s1: Sessions, t1: Tasks, s: string)
    requires OthersKept(name, s0, t0, s1, t1) && s != name
    ensures (s in s0 <==> s in s1) && (s in t0 <==> s in t1)
    ensures (s in s0 ==> s1[s] == s0[s]) && (s in t0 ==> t1[s] == t0[s])
  {
    Elsewhere(s1, s0, name, s);
    Elsewhere(t1, t0, name, s);
  }

  /** The Jobs and claims of every other session are what they were. */
  ghost predicate OtherResources(name: string, j0: map<string, set<string>>, c0: set<string>, j1: map<string, set<string>>, c1: set<string>) {
    j1 - {name} == j0 - {name} && c1 - {name} == c0 - {name}
  }
}
