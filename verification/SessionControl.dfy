/** The session lifecycle. Each method body runs under its session's lock (see LockTable). */
module SessionControl {
  import opened Prelude
  import opened SessionTypes
  import opened SessionTasks
  import opened SessionStore
  import opened SessionSteps
  import opened DnsNames

  datatype ErrorKind = Invalid | Missing | Conflicting | Unreachable

  /** A finished task is left alone; any other is what some observation makes of it. */
  ghost predicate SeenAs(before: Task, storage: Storage, after: Task) {
    if before.state.Terminal() then after == before
    else exists o, at :: after == Observed(before, o, storage, at)
  }

  /** The task as it was last seen if it had finished, and otherwise canceled. */
  ghost predicate SettledAs(before: Task, storage: Storage, after: Task) {
    || (after.state.Terminal() && SeenAs(before, storage, after))
    || exists seen :: SeenAs(before, storage, seen) && !seen.state.Terminal() && CanceledFrom(seen, after)
  }

  /** An unfinished task that was canceled, and is otherwise what it was. */
  predicate CanceledFrom(task: Task, canceled: Task) {
    && canceled.state.TaskCanceled? && canceled.finishedAt.Some?
    && canceled == task.(state := canceled.state, finishedAt := canceled.finishedAt)
  }

  /** One session lost some or all of its Jobs; the others kept theirs. */
  ghost predicate JobsRemoved(name: string, before: map<string, set<string>>, after: map<string, set<string>>) {
    after - {name} == before - {name} && JobsOf(after, name) <= JobsOf(before, name)
  }

  /** Of the publisher Jobs at most the named session's is gone. */
  ghost predicate PublishersRemoved(name: string, before: set<string>, after: set<string>) {
    after <= before && before - {name} <= after
  }

  lemma StartIsLabel(d: Definition, r: StartRequest)
    requires ValidStart(d, r)
    ensures IsLabel(r.name, SESSION_NAME_MAX)
  {}

  lemma LatestIsNotFirst(name: string, sessions: Sessions, tasks: Tasks)
    requires GoodRows(sessions, tasks) && name in sessions && |tasks[name]| > 1
    ensures Latest(tasks[name]).id != tasks[name][0].id
  {}

  lemma SessionIsNamed(name: string, sessions: Sessions, tasks: Tasks)
    requires GoodRows(sessions, tasks) && name in sessions
    ensures sessions[name].name == name
  {}

  lemma SessionIsLabel(name: string, sessions: Sessions, tasks: Tasks)
    requires GoodRows(sessions, tasks) && name in sessions
    ensures IsLabel(name, SESSION_NAME_MAX)
  {}

  /** What removing a session may have done to its row and tasks, finished or not. */
  ghost predicate Removing(name: string, storage: bool, s0: Sessions, t0: Tasks, s1: Sessions, t1: Tasks) {
    && t0.Keys == s0.Keys && t1.Keys == s1.Keys
    && OthersKept(name, s0, t0, s1, t1)
    && (name in s1 ==>
          && name in s0 && s1[name] == s0[name].(deletion := s1[name].deletion) && SameLength(t0[name], t1[name])
          && s1[name].deletion in {s0[name].deletion, Some(storage), None})
    && (name in s0 && name !in s1 ==> storage || s0[name].definition.storage.Ephemeral?)
  }

  /** The rows at one moment. */
  datatype RowsState = RowsState(sessions: Sessions, tasks: Tasks)

  /** One recorded deletion was retried. */
  ghost predicate Retry(a: RowsState, b: RowsState) {
    exists name, storage :: name in a.sessions && a.sessions[name].deletion == Some(storage)
      && Removing(name, storage, a.sessions, a.tasks, b.sessions, b.tasks)
  }

  ghost predicate Retries(trail: seq<RowsState>) {
    |trail| > 0 && forall i | 0 <= i < |trail| - 1 :: Retry(trail[i], trail[i + 1])
  }

  lemma NormalizedTwice(d: Definition, r: StartRequest)
    ensures Normalized(d, Normalized(d, r)) == Normalized(d, r)
  {}

  class Control {
    const rows: Repository
    const runtime: Runtime
    const image: string
    const taskTimeout: int

    ghost predicate Valid()
      reads this, rows, runtime
    {
      && rows.Valid() && Backed(rows.sessions, rows.tasks, runtime.jobs, runtime.claims)
      && Claimed(rows.sessions, rows.tasks, runtime.jobs, runtime.claims)
      && runtime.publishers <= rows.sessions.Keys
    }

    ghost function Now(): Store
      reads rows, runtime
    {
      Store(rows.sessions, rows.tasks, runtime.jobs, runtime.claims, runtime.publishers)
    }

    constructor (rows: Repository, runtime: Runtime, image: string, taskTimeout: int)
      requires rows.Valid() && Backed(rows.sessions, rows.tasks, runtime.jobs, runtime.claims)
      requires Claimed(rows.sessions, rows.tasks, runtime.jobs, runtime.claims) && runtime.publishers <= rows.sessions.Keys
      ensures Valid() && this.rows == rows && this.runtime == runtime && this.image == image && this.taskTimeout == taskTimeout
    {
      this.rows, this.runtime, this.image, this.taskTimeout := rows, runtime, image, taskTimeout;
    }

    /** The named session was started to do exactly this. */
    ghost predicate Recorded(definition: Definition, request: StartRequest)
      reads this, rows
    {
      && request.name in rows.sessions
      && rows.sessions[request.name].intent == Intent(definition, request, runtime.scope, image)
    }

    /** The named session's row and first task are what the request asks for. */
    ghost predicate StartedAs(definition: Definition, request: StartRequest)
      requires rows.Valid()
      reads this, rows
    {
      && request.name in rows.sessions
      && AsAsked(definition, request, runtime.scope, image, rows.sessions[request.name], rows.tasks[request.name][0])
    }

    lemma AskedOf(definition: Definition, request: StartRequest)
      requires Valid() && request.name in rows.sessions
      ensures Recorded(definition, Normalized(definition, request)) <==> StartedAs(definition, request)
    {
      hide IsLabel, GoodHistory, Backed, Claimed, AsIntended, AsAsked;
      HasLatest(request.name, rows.sessions, rows.tasks);
      AskedExactly(definition, request, runtime.scope, image, rows.sessions[request.name], rows.tasks[request.name][0]);
    }

    /** A session's row and only task as its start leaves them, apart from the time. */
    ghost predicate FreshlyStarted(definition: Definition, request: StartRequest)
      requires rows.Valid()
      reads this, rows
    {
      && request.name in rows.sessions
      && var at := rows.sessions[request.name].createdAt;
      && rows.sessions[request.name] == InitialRecord(definition, request, runtime.scope, image, at)
      && rows.tasks[request.name] == [InitialTask(request, at)]
    }

    /** Records a new session and its first task, or finds an existing session that was started to do the same. */
    method Accept(definition: Definition, request: StartRequest) returns (r: Result<(Record, Task), ErrorKind>)
      requires Valid() && ValidStart(definition, request) && request == Normalized(definition, request)
      modifies rows
      ensures Valid()
      ensures OthersKept(request.name, old(rows.sessions), old(rows.tasks), rows.sessions, rows.tasks)
      ensures request.name in old(rows.sessions) ==> rows.sessions == old(rows.sessions) && rows.tasks == old(rows.tasks)
      ensures request.name in rows.sessions && request.name !in old(rows.sessions) ==> FreshlyStarted(definition, request)
      ensures r.Success? ==>
                && Recorded(definition, request)
                && r.value == (rows.sessions[request.name], Latest(rows.tasks[request.name]))
      ensures r.Failure? ==> r.error.Conflicting? || r.error.Unreachable?
      ensures r == Failure(Conflicting) ==> request.name in old(rows.sessions) && !Recorded(definition, request)
      ensures Works(request.name, old(Now()), Now())
    {
      hide Backed, Claimed, GoodRows, IsLabel, ValidStart, Works, AsIntended;
      StartIsLabel(definition, request);
      if request.name in rows.sessions { HasLatest(request.name, rows.sessions, rows.tasks); }
      var now: int := *;
      var record, task := InitialRecord(definition, request, runtime.scope, image, now), InitialTask(request, now);
      InitialIsIntended(definition, request, runtime.scope, image, now);
      var err := rows.Create(record, task);
      InsertCall(old(Now()), record, task, Now());
      if err == None { return Success((record, task)); }
      if err.value != Conflict { return Failure(Unreachable); }

      var existing := rows.Get(request.name);
      if existing.Failure? { return Failure(Unreachable); }
      if existing.value.intent != Intent(definition, request, runtime.scope, image) { return Failure(Conflicting); }
      var latest := rows.LatestTask(request.name);
      if latest.Failure? { return Failure(Unreachable); }
      r := Success((existing.value, latest.value));
    }

    /** Applies the runtime resources of a session's unfinished latest task: its Job is handed what the rows say. */
    method Launch(record: Record, task: Task, resume: bool) returns (ok: bool)
      requires Valid() && record.name in rows.sessions && rows.sessions[record.name] == record
      requires Latest(rows.tasks[record.name]) == task && !task.state.Terminal() && (resume ==> task.id != rows.tasks[record.name][0].id)
      modifies runtime`jobs, runtime`claims
      ensures Valid()
      ensures ok ==> task.id in runtime.Jobs(record.name)
      ensures resume ==> runtime.claims == old(runtime.claims)
      ensures OtherResources(record.name, old(runtime.jobs), old(runtime.claims), runtime.jobs, runtime.claims)
      ensures Works(record.name, old(Now()), Now())
    {
      hide Backed, Claimed, Works, AsIntended, IsLabel, GoodTask;
      var d := record.definition;
      var request := TaskRequest(record.name, task.id, record.image, d.storage, record.repository, record.initialRef, d.setupCommand,
                                 task.prompt, d.agent, d.instructions, d.skills, d.cloneDepth, d.storageSize, task.timeout, task.resultKind,
                                 record.workflowRun, record.workflowStep, task.changeInput, resume);
      ok := runtime.Start(rows, request);
      StartCall(old(Now()), record.name, Now());
    }

    /**
     * Records the session before any runtime effect. A session that already exists is only returned, unchanged, and
     * only when it was started to do the same; its unfinished task is applied again.
     */
    method Start(definition: Definition, request: StartRequest) returns (err: Option<ErrorKind>)
      requires Valid()
      modifies rows, runtime`jobs, runtime`claims
      ensures Valid()
      ensures OthersKept(request.name, old(rows.sessions), old(rows.tasks), rows.sessions, rows.tasks)
      ensures request.name in old(rows.sessions) ==> rows.sessions == old(rows.sessions) && rows.tasks == old(rows.tasks)
      ensures request.name in rows.sessions && request.name !in old(rows.sessions) ==> FreshlyStarted(definition, Normalized(definition, request))
      ensures err == None ==> Recorded(definition, Normalized(definition, request)) && StartedAs(definition, request)
      ensures request.name in rows.sessions && request.name !in old(rows.sessions) ==>
                && StartedAs(definition, request) && |rows.tasks[request.name]| == 1
                && rows.sessions[request.name].deletion.None? && NotBegun(rows.tasks[request.name][0])
      ensures err == None && !Latest(rows.tasks[request.name]).state.Terminal() ==>
                Latest(rows.tasks[request.name]).id in runtime.Jobs(request.name)
      ensures err == Some(Invalid) <==> Refused(definition, request)
      ensures err == Some(Conflicting) ==>
                && request.name in old(rows.sessions) && !Recorded(definition, Normalized(definition, request))
                && !StartedAs(definition, request)
      ensures err != Some(Missing)
      ensures err == Some(Conflicting) || err == Some(Invalid) ==> runtime.jobs == old(runtime.jobs) && runtime.claims == old(runtime.claims)
      ensures OtherResources(request.name, old(runtime.jobs), old(runtime.claims), runtime.jobs, runtime.claims)
      ensures Works(request.name, old(Now()), Now())
    {
      hide Works, Backed, Claimed, IsLabel, ValidStart, GoodTask, AsIntended, AsAsked, Refused;
      NoCall(request.name, Now());
      RefusedExactly(definition, request);
      var normalized := Normalized(definition, request);
      if !ValidStart(definition, normalized) { return Some(Invalid); }
      NormalizedTwice(definition, request);

      var latest := Accept(definition, normalized);
      if request.name in rows.sessions { AskedOf(definition, request); }
      if latest.Failure? { return Some(latest.error); }
      var (record, task) := latest.value;

      if !task.state.Terminal() {
        var credential: bool := *;
        if !credential { return Some(Unreachable); }
        ghost var accepted := Now();
        var ok := Launch(record, task, false);
        WorksOn(request.name, old(Now()), accepted, Now());
        if !ok { return Some(Unreachable); }
      }
      err := None;
    }

    /** Observes the latest task and records what the runtime shows of it; a finished task is only read. */
    method SynchronizeLatestTask(name: string, storage: Storage) returns (r: Option<Task>)
      requires Valid() && name in rows.sessions && rows.sessions[name].definition.storage == storage
      modifies rows
      ensures Valid() && rows.sessions == old(rows.sessions)
      ensures OthersKept(name, old(rows.sessions), old(rows.tasks), rows.sessions, rows.tasks)
      ensures SameLength(old(rows.tasks)[name], rows.tasks[name])
      ensures NoneCanceled(old(rows.tasks)[name], rows.tasks[name])
      ensures r.Some? ==> r.value == Latest(rows.tasks[name])
      ensures r.Some? ==> SeenAs(Latest(old(rows.tasks)[name]), storage, r.value)
      ensures r.Some? && !Latest(old(rows.tasks)[name]).state.Terminal() ==> r.value.id in runtime.Jobs(name)
      ensures Works(name, old(Now()), Now())
    {
      hide Claimed, Backed, Works, Observed, GoodTask, IsLabel, AsIntended, HistoryGrows;
      NoCall(name, Now());
      SameLengthReflexive(rows.tasks[name]);
      var latest := rows.LatestTask(name);
      if latest.Failure? { return None; }
      var task := latest.value;
      if task.state.Terminal() { return Some(task); }

      var seen := runtime.Observe(name, task.id);
      if seen.None? { return None; }
      var now: int := *;
      ObservedIsGood(task, seen.value, storage, now);
      ObservedVerdict(task, seen.value, storage, now);
      assert SeenAs(task, storage, Observed(task, seen.value, storage, now));
      task := Observed(task, seen.value, storage, now);
      var recorded := RecordProgress(name, task);
      if !recorded { return None; }
      r := Some(task);
    }

    /** Records how far the latest task has come: it was seen running or finished, or is canceled. */
    method RecordProgress(name: string, task: Task) returns (ok: bool)
      requires Valid() && name in rows.sessions && TaskMoves(Latest(rows.tasks[name]), task) && GoodTask(task)
      requires task.state.TaskCanceled? || task.id in runtime.Jobs(name)
      modifies rows
      ensures Valid() && rows.sessions == old(rows.sessions)
      ensures OthersKept(name, old(rows.sessions), old(rows.tasks), rows.sessions, rows.tasks)
      ensures SameLength(old(rows.tasks)[name], rows.tasks[name])
      ensures !task.state.TaskCanceled? ==> NoneCanceled(old(rows.tasks)[name], rows.tasks[name])
      ensures ok ==> Latest(rows.tasks[name]) == task
      ensures Works(name, old(Now()), Now())
    {
      hide Backed, Claimed, HistoryGrows, Works, AsIntended, IsLabel, GoodTask;
      SameLengthReflexive(rows.tasks[name]);
      ReplacedSameLength(rows.tasks[name], rows.tasks[name], task);
      var err := rows.UpdateTask(name, task);
      ProgressCall(old(Now()), name, task, Now());
      ok := err.None?;
    }

    /** The session is of another server's runtime scope. */
    ghost predicate OfAnotherScope(name: string)
      reads rows
    {
      name in rows.sessions && rows.sessions[name].scope != runtime.scope
    }

    /** Someone has asked for the session to be deleted. */
    ghost predicate Leaving(name: string)
      reads rows
    {
      name in rows.sessions && rows.sessions[name].deletion.Some?
    }

    /** The session's latest task has not finished. */
    ghost predicate Working(name: string)
      reads rows
    {
      name in rows.sessions && name in rows.tasks && |rows.tasks[name]| > 0 && !Latest(rows.tasks[name]).state.Terminal()
    }

    /** A session of this server's runtime scope. */
    method Find(name: string) returns (r: Result<Record, ErrorKind>)
      requires Valid()
      ensures r.Success? ==> name in rows.sessions && r.value == rows.sessions[name] && r.value.scope == runtime.scope
      ensures r == Failure(Missing) ==> name !in rows.sessions
      ensures r == Failure(Conflicting) ==> name in rows.sessions && rows.sessions[name].scope != runtime.scope
      ensures r != Failure(Invalid)
    {
      var got := rows.Get(name);
      if got.Failure? { return Failure(if got.error.NotFound? then Missing else Unreachable); }
      if got.value.scope != runtime.scope { return Failure(Conflicting); }
      r := Success(got.value);
    }

    /** Adds an unfinished task's row when no other task is unfinished. */
    method RecordTask(name: string, task: Task) returns (err: Option<StoreError>)
      requires Valid() && name in rows.sessions && GoodTask(task)
      modifies rows
      ensures Valid() && rows.sessions == old(rows.sessions)
      ensures var added := old(rows.tasks)[name := old(rows.tasks)[name] + [task]];
              rows.tasks == added || (err.Some? && rows.tasks == old(rows.tasks))
      ensures err == Some(ActiveTask) ==> !Latest(rows.tasks[name]).state.Terminal()
      ensures Works(name, old(Now()), Now())
    {
      hide Claimed, Backed, Works, GoodTask, HasTask, IsLabel, AsIntended;
      err := rows.AddTask(name, task);
      AddCall(old(Now()), name, task, Now());
    }

    /** A session that may be given another task, after its latest task was observed. */
    method PrepareTask(name: string) returns (r: Result<Record, ErrorKind>)
      requires Valid()
      modifies rows
      ensures Valid() && rows.sessions == old(rows.sessions)
      ensures OthersKept(name, old(rows.sessions), old(rows.tasks), rows.sessions, rows.tasks)
      ensures name in rows.sessions ==> SameLength(old(rows.tasks)[name], rows.tasks[name])
      ensures r.Success? ==>
                && name in rows.sessions && r.value == rows.sessions[name]
                && r.value.definition.storage.Persistent? && r.value.deletion.None?
      ensures r == Failure(Missing) ==> name !in rows.sessions
      ensures r == Failure(Invalid) ==> name in rows.sessions && rows.sessions[name].definition.storage.Ephemeral?
      ensures r == Failure(Conflicting) ==> OfAnotherScope(name) || Leaving(name)
      ensures Works(name, old(Now()), Now())
    {
      hide Works, GoodTask, IsLabel, AsIntended;
      NoCall(name, Now());
      r := Find(name);
      if r.Failure? { return; }
      var record := r.value;
      if record.definition.storage != Persistent { return Failure(Invalid); }
      if record.deletion.Some? { return Failure(Conflicting); }
      var latest := SynchronizeLatestTask(name, record.definition.storage);
      if latest.None? { return Failure(Unreachable); }
    }

    /** Adds a task to a persistent session without unfinished work, and records it before starting it. */
    method Continue(name: string, prompt: string, timeout: int) returns (r: Result<string, ErrorKind>)
      requires Valid()
      modifies rows, runtime`jobs, runtime`claims
      ensures Valid()
      ensures rows.sessions == old(rows.sessions)
      ensures OthersKept(name, old(rows.sessions), old(rows.tasks), rows.sessions, rows.tasks)
      ensures name in rows.sessions ==> HistoryGrows(old(rows.tasks)[name], rows.tasks[name])
      ensures r.Success? ==>
                && name in rows.sessions && rows.sessions[name].definition.storage.Persistent? && rows.sessions[name].deletion.None?
                && |rows.tasks[name]| == |old(rows.tasks)[name]| + 1
                && Latest(rows.tasks[name]).id == r.value && name + "-" <= r.value && Latest(rows.tasks[name]).prompt == prompt
                && Latest(rows.tasks[name]).timeout == (if timeout == 0 then taskTimeout else timeout)
                && Latest(rows.tasks[name]).resultKind.PullRequest? && Latest(rows.tasks[name]).changeInput.None?
                && NotBegun(Latest(rows.tasks[name]))
                && r.value in runtime.Jobs(name) && IsLabel(r.value, TASK_ID_MAX)
      ensures forall t | name in rows.sessions && t in rows.tasks[name][|old(rows.tasks)[name]|..] :: IsLabel(t.id, TASK_ID_MAX)
      ensures IsBlank(name) || IsBlank(prompt) || (timeout < 0 || (timeout == 0 && taskTimeout <= 0)) ==> r == Failure(Invalid)
      ensures r == Failure(Invalid) ==>
                || IsBlank(name) || IsBlank(prompt) || timeout < 0 || (timeout == 0 && taskTimeout <= 0)
                || (name in rows.sessions && rows.sessions[name].definition.storage.Ephemeral?)
      ensures r == Failure(Conflicting) ==> OfAnotherScope(name) || Leaving(name) || Working(name)
      ensures runtime.claims == old(runtime.claims)
      ensures r == Failure(Missing) ==> name !in rows.sessions
      ensures OtherResources(name, old(runtime.jobs), old(runtime.claims), runtime.jobs, runtime.claims)
      ensures Works(name, old(Now()), Now())
    {
      hide Backed, Claimed, GoodRows, GoodHistory, HistoryGrows, IsLabel, Works, AsIntended;
      NoCall(name, Now());
      KeyedRows(RowsState(rows.sessions, rows.tasks));
      if name in rows.tasks { SameLengthReflexive(rows.tasks[name]); }
      var limit := if timeout == 0 then taskTimeout else timeout;
      if IsBlank(name) || IsBlank(prompt) || limit <= 0 { return Failure(Invalid); }
      var found := PrepareTask(name);
      if found.Failure? { return Failure(found.error); }
      HasLatest(name, rows.sessions, rows.tasks);

      var suffix: string := *;
      if !IsHex(suffix, SUFFIX_LENGTH) { return Failure(Unreachable); }
      SessionIsLabel(name, rows.sessions, rows.tasks);
      TaskIdFits(name, suffix);
      var now: int := *;
      var task := Task(name + "-" + suffix, prompt, limit, PullRequest, None, TaskPending, NO_ARTIFACTS, "", now, None);
      HistoryExtends(old(rows.tasks)[name], rows.tasks[name], task);
      ghost var prepared := Now();
      SessionIsNamed(name, rows.sessions, rows.tasks);
      var err := RecordTask(name, task);
      HasLatest(name, rows.sessions, rows.tasks);
      ghost var recorded := Now();
      WorksOn(name, old(Now()), prepared, recorded);
      if err.Some? { return Failure(if err.value == ActiveTask then Conflicting else Unreachable); }
      LatestIsNotFirst(name, rows.sessions, rows.tasks);
      var ok := Launch(found.value, task, true);
      WorksOn(name, old(Now()), recorded, Now());
      if !ok { return Failure(Unreachable); }
      r := Success(task.id);
    }

    /** The latest task's state after observing the runtime. */
    method Status(name: string) returns (r: Result<TaskState, ErrorKind>)
      requires Valid()
      modifies rows
      ensures Valid() && rows.sessions == old(rows.sessions)
      ensures OthersKept(name, old(rows.sessions), old(rows.tasks), rows.sessions, rows.tasks)
      ensures name in rows.sessions ==> SameLength(old(rows.tasks)[name], rows.tasks[name])
      ensures name in rows.sessions ==> NoneCanceled(old(rows.tasks)[name], rows.tasks[name])
      ensures r.Success? ==> name in rows.sessions && r.value == Latest(rows.tasks[name]).state
      ensures r == Failure(Invalid) <==> IsBlank(name)
      ensures r == Failure(Conflicting) ==> OfAnotherScope(name)
      ensures r == Failure(Missing) ==> name !in rows.sessions
      ensures Works(name, old(Now()), Now())
    {
      hide Works, AsIntended, IsLabel, GoodTask;
      NoCall(name, Now());
      if IsBlank(name) { return Failure(Invalid); }
      var found := Find(name);
      if found.Failure? { return Failure(found.error); }
      var task := SynchronizeLatestTask(name, found.value.definition.storage);
      if task.None? { return Failure(Unreachable); }
      r := Success(task.value.state);
    }

    /** The artifacts of the latest task once it has finished. */
    method Artifacts(name: string) returns (r: Result<Artifacts, ErrorKind>)
      requires Valid()
      modifies rows
      ensures Valid() && rows.sessions == old(rows.sessions)
      ensures OthersKept(name, old(rows.sessions), old(rows.tasks), rows.sessions, rows.tasks)
      ensures name in rows.sessions ==> SameLength(old(rows.tasks)[name], rows.tasks[name])
      ensures name in rows.sessions ==> NoneCanceled(old(rows.tasks)[name], rows.tasks[name])
      ensures r.Success? ==>
                && name in rows.sessions && r.value == Latest(rows.tasks[name]).artifacts
                && Latest(rows.tasks[name]).state.Terminal() && !r.value.outcome.NoOutcome?
      ensures r == Failure(Invalid) <==> IsBlank(name)
      ensures r == Failure(Conflicting) ==> OfAnotherScope(name) || Working(name)
      ensures r == Failure(Missing) ==> name !in rows.sessions
      ensures Works(name, old(Now()), Now())
    {
      hide Works, AsIntended, IsLabel, GoodTask;
      NoCall(name, Now());
      if IsBlank(name) { return Failure(Invalid); }
      var found := Find(name);
      if found.Failure? { return Failure(found.error); }
      var task := SynchronizeLatestTask(name, found.value.definition.storage);
      if task.None? { return Failure(Unreachable); }
      if !task.value.state.Terminal() { return Failure(Conflicting); }
      if task.value.artifacts.outcome.NoOutcome? { return Failure(Unreachable); }
      r := Success(task.value.artifacts);
    }

    /** Durably finishes the latest task: as it is observed, or else as canceled. */
    method SettleLatestTask(name: string, storage: Storage) returns (ok: bool)
      requires Valid() && name in rows.sessions && rows.sessions[name].definition.storage == storage
      modifies rows
      ensures Valid() && rows.sessions == old(rows.sessions)
      ensures OthersKept(name, old(rows.sessions), old(rows.tasks), rows.sessions, rows.tasks)
      ensures SameLength(old(rows.tasks)[name], rows.tasks[name])
      ensures ok ==> Latest(rows.tasks[name]).state.Terminal()
      ensures ok ==> SettledAs(Latest(old(rows.tasks)[name]), storage, Latest(rows.tasks[name]))
      ensures Works(name, old(Now()), Now())
    {
      hide GoodRows, Backed, Claimed, HistoryGrows, SettledAs, SeenAs, Works;
      NoCall(name, Now());
      HasLatest(name, rows.sessions, rows.tasks);
      SameLengthReflexive(rows.tasks[name]);
      var latest := rows.LatestTask(name);
      if latest.Failure? { return false; }
      var task := latest.value;
      if task.state.Terminal() { FinishedIsSettled(task, storage); }
      if !task.state.Terminal() {
        var synchronized := SynchronizeLatestTask(name, storage);
        if synchronized.None? { return false; }
        task := synchronized.value;
        HasLatest(name, rows.sessions, rows.tasks);
      }
      SeenIsSettled(Latest(old(rows.tasks)[name]), storage, task);
      if task.state.Terminal() { return true; }
      ghost var settling, seen := rows.tasks[name], Now();
      ok := CancelTask(name, task);
      WorksOn(name, old(Now()), seen, Now());
      HasLatest(name, rows.sessions, rows.tasks);
      SameLengthTransitive(old(rows.tasks)[name], settling, rows.tasks[name]);
    }

    /** Durably finishes an unfinished latest task as canceled. */
    method CancelTask(name: string, task: Task) returns (ok: bool)
      requires Valid() && name in rows.sessions && task == Latest(rows.tasks[name]) && !task.state.Terminal()
      modifies rows
      ensures Valid() && rows.sessions == old(rows.sessions)
      ensures OthersKept(name, old(rows.sessions), old(rows.tasks), rows.sessions, rows.tasks)
      ensures SameLength(old(rows.tasks)[name], rows.tasks[name])
      ensures ok ==> CanceledFrom(task, Latest(rows.tasks[name]))
      ensures Works(name, old(Now()), Now())
    {
      var now: int := *;
      ok := RecordProgress(name, task.(state := TaskCanceled, finishedAt := Some(now)));
    }

    /**
     * Completes a durably intended deletion: the latest task is durably finished first, then the runtime resources go,
     * and only then does the row change.
     */
    method FinishDeletion(record: Record, storage: bool) returns (ok: bool)
      requires Valid() && record.name in rows.sessions
      requires rows.sessions[record.name] == record.(deletion := Some(storage))
      modifies rows, runtime
      ensures Valid()
      ensures OthersKept(record.name, old(rows.sessions), old(rows.tasks), rows.sessions, rows.tasks)
      ensures record.name in rows.sessions ==>
                && rows.sessions[record.name] == record.(deletion := rows.sessions[record.name].deletion)
                && rows.sessions[record.name].deletion in {Some(storage), None}
                && SameLength(old(rows.tasks)[record.name], rows.tasks[record.name])
      ensures ok ==> runtime.Jobs(record.name) == {} && record.name !in runtime.publishers && (storage ==> record.name !in runtime.claims)
      ensures JobsRemoved(record.name, old(runtime.jobs), runtime.jobs)
      ensures OtherResources(record.name, old(runtime.jobs), old(runtime.claims), runtime.jobs, runtime.claims)
      ensures ok ==> if storage || record.definition.storage.Ephemeral? then record.name !in rows.sessions
                     else record.name in rows.sessions && rows.sessions[record.name].deletion == None
                          && Latest(rows.tasks[record.name]).state.Terminal()
      ensures record.name !in rows.sessions ==> storage || record.definition.storage.Ephemeral?
      ensures PublishersRemoved(record.name, old(runtime.publishers), runtime.publishers)
      ensures Works(record.name, old(Now()), Now())
    {
      hide Backed, Claimed, GoodRows, GoodHistory, HistoryGrows, SettledAs, Works, IsLabel, AsIntended, CanceledFrom;
      var name := record.name;
      NoCall(name, Now());
      HasLatest(name, rows.sessions, rows.tasks);
      SameLengthReflexive(rows.tasks[name]);
      if record.scope != runtime.scope { return false; }
      var settled := SettleLatestTask(name, record.definition.storage);
      if !settled { return false; }

      ghost var finished := Now();
      var removed := runtime.Delete(rows, name, storage);
      ghost var bare := Now();
      RemoveCall(finished, name, storage, bare);
      WorksOn(name, old(Now()), finished, bare);
      if !removed { return false; }

      NoClaim(name, rows.sessions, rows.tasks, runtime.jobs, runtime.claims);
      ok := DropRecord(name, storage || record.definition.storage.Ephemeral?);
      WorksOn(name, old(Now()), bare, Now());
    }

    /** Removes the row of a session without resources, or clears its intent. */
    method DropRecord(name: string, remove: bool) returns (ok: bool)
      requires Valid() && name in rows.sessions && runtime.Jobs(name) == {} && name !in runtime.publishers
      requires if remove then rows.sessions[name].deletion.Some? && name !in runtime.claims else rows.sessions[name].deletion == Some(false)
      modifies rows
      ensures Valid()
      ensures OthersKept(name, old(rows.sessions), old(rows.tasks), rows.sessions, rows.tasks)
      ensures name in rows.sessions ==>
                && rows.sessions[name] == old(rows.sessions)[name].(deletion := rows.sessions[name].deletion)
                && rows.sessions[name].deletion in {old(rows.sessions)[name].deletion, None}
                && rows.tasks[name] == old(rows.tasks)[name]
      ensures name !in rows.sessions ==> remove
      ensures ok ==> if remove then name !in rows.sessions else name in rows.sessions && rows.sessions[name].deletion == None
      ensures Works(name, old(Now()), Now())
    {
      hide Backed, Claimed, GoodHistory, Works, IsLabel, AsIntended;
      var err := rows.FinishDeletion(name, remove);
      FinishCall(old(Now()), name, remove, Now());
      ok := err.None?;
    }

    /** Removes a session's compute, and with storage everything about it; a missing session needs nothing. */
    method Delete(name: string, storage: bool) returns (err: Option<ErrorKind>)
      requires Valid()
      modifies rows, runtime
      ensures Valid()
      ensures Removing(name, storage, old(rows.sessions), old(rows.tasks), rows.sessions, rows.tasks)
      ensures JobsRemoved(name, old(runtime.jobs), runtime.jobs)
      ensures OtherResources(name, old(runtime.jobs), old(runtime.claims), runtime.jobs, runtime.claims)
      ensures err == None ==> runtime.Jobs(name) == {} && (storage ==> name !in rows.sessions && name !in runtime.claims)
      ensures err == None ==> name !in runtime.publishers
      ensures err == Some(Invalid) <==> IsBlank(name)
      ensures err != Some(Missing)
      ensures PublishersRemoved(name, old(runtime.publishers), runtime.publishers)
      ensures err == None && name in rows.sessions ==>
                rows.sessions[name].deletion == None && Latest(rows.tasks[name]).state.Terminal()
      ensures err == Some(Conflicting) ==>
                && name in old(rows.sessions) && old(rows.sessions)[name].deletion == Some(!storage)
                && rows.sessions == old(rows.sessions) && rows.tasks == old(rows.tasks) && runtime.jobs == old(runtime.jobs)
      ensures Works(name, old(Now()), Now())
    {
      hide Backed, Claimed, GoodHistory, HistoryGrows, Works, AsIntended, IsLabel;
      NoCall(name, Now());
      if name in rows.tasks { SameLengthReflexive(rows.tasks[name]); }
      if IsBlank(name) { return Some(Invalid); }
      var found := rows.Get(name);
      if found.Failure? {
        if found.error.Unavailable? { return Some(Unreachable); }
        NothingUnrecorded(rows.sessions, rows.tasks, runtime.jobs, runtime.claims, name);
        return None;
      }
      var record := found.value;

      var begun := rows.BeginDeletion(name, storage);
      ghost var intended := Now();
      IntendCall(old(Now()), name, storage, intended);
      if begun.Some? { return Some(if begun.value == Conflict then Conflicting else Unreachable); }
      var ok := FinishDeletion(record, storage);
      WorksOn(name, old(Now()), intended, Now());
      err := if ok then None else Some(Unreachable);
    }

    /** Retries one recorded deletion. */
    method RetryDeletion(name: string) returns (ok: bool)
      requires Valid() && name in rows.sessions && rows.sessions[name].deletion.Some?
      modifies rows, runtime
      ensures Valid()
      ensures Removing(name, old(rows.sessions)[name].deletion.value, old(rows.sessions), old(rows.tasks), rows.sessions, rows.tasks)
      ensures ok && name in rows.sessions ==> rows.sessions[name].deletion == None
      ensures runtime.publishers <= old(runtime.publishers)
      ensures Works(name, old(Now()), Now())
    {
      hide Backed, Claimed, GoodHistory, HistoryGrows;
      var record := rows.sessions[name];
      ok := FinishDeletion(record, record.deletion.value);
    }

    /** Retries every recorded deletion; without an error no deletion intent is left. */
    method ReconcileDeletions() returns (ok: bool, ghost trail: seq<RowsState>)
      requires Valid()
      modifies rows, runtime
      ensures Valid()
      ensures Retries(trail)
      ensures trail[0] == old(RowsState(rows.sessions, rows.tasks)) && trail[|trail| - 1] == RowsState(rows.sessions, rows.tasks)
      ensures ok ==> forall s | s in rows.sessions :: rows.sessions[s].deletion == None
      ensures runtime.publishers <= old(runtime.publishers)
    {
      hide GoodRows, Backed, Claimed, Removing;
      trail := [RowsState(rows.sessions, rows.tasks)];
      var deleting := rows.Deleting();
      if deleting.Failure? { return false, trail; }
      var left := deleting.value;
      ok := true;
      while left != {}
        invariant Valid()
        invariant Retries(trail) && trail[0] == old(RowsState(rows.sessions, rows.tasks))
        invariant trail[|trail| - 1] == RowsState(rows.sessions, rows.tasks)
        invariant Queued(rows.sessions, left)
        invariant runtime.publishers <= old(runtime.publishers)
        invariant ok ==> OnlyQueued(rows.sessions, left)
      {
        var name :| name in left;
        left := left - {name};
        ghost var before := RowsState(rows.sessions, rows.tasks);
        var done := RetryDeletion(name);
        ghost var after := RowsState(rows.sessions, rows.tasks);
        assert Retry(before, after);
        QueueAfterRetry(name, before.sessions[name].deletion.value, before, after, left);
        trail := trail + [after];
        ok := ok && done;
      }
    }

    /** The source of a publication: only a persistent session without deletion whose latest task completed. */
    method PreparePublication(name: string) returns (r: Result<PublicationSource, ErrorKind>)
      requires Valid()
      modifies rows
      ensures Valid() && rows.sessions == old(rows.sessions)
      ensures OthersKept(name, old(rows.sessions), old(rows.tasks), rows.sessions, rows.tasks)
      ensures name in rows.sessions ==>
                SameLength(old(rows.tasks)[name], rows.tasks[name]) && NoneCanceled(old(rows.tasks)[name], rows.tasks[name])
      ensures r.Success? ==>
                && name in rows.sessions
                && rows.sessions[name].deletion == None && rows.sessions[name].definition.storage.Persistent?
                && Latest(rows.tasks[name]).state.TaskCompleted?
                && r.value.pullRequest == Latest(rows.tasks[name]).artifacts.pullRequest != ""
                && r.value.change == Latest(rows.tasks[name]).artifacts.change
                && r.value.repository == rows.sessions[name].repository && r.value.initialRef == rows.sessions[name].initialRef
                && r.value.image == rows.sessions[name].image
      ensures r == Failure(Invalid) ==>
                || IsBlank(name)
                || (name in rows.sessions && rows.sessions[name].definition.storage.Ephemeral?)
                || (name in rows.sessions && !Latest(rows.tasks[name]).state.TaskCompleted?)
      ensures r == Failure(Conflicting) ==> OfAnotherScope(name) || Leaving(name)
      ensures r == Failure(Missing) ==> name !in rows.sessions
      ensures Works(name, old(Now()), Now())
    {
      hide Works, AsIntended, IsLabel, GoodTask;
      NoCall(name, Now());
      if IsBlank(name) { return Failure(Invalid); }
      var found := Find(name);
      if found.Failure? { return Failure(found.error); }
      var record := found.value;
      if record.deletion.Some? { return Failure(Conflicting); }
      var task := SynchronizeLatestTask(name, record.definition.storage);
      if task.None? { return Failure(Unreachable); }
      if !task.value.state.TaskCompleted? || record.definition.storage != Persistent { return Failure(Invalid); }
      if task.value.artifacts.pullRequest == "" { return Failure(Unreachable); }
      r := Success(PublicationSource(record.repository, record.initialRef, record.image,
                                     task.value.artifacts.pullRequest, task.value.artifacts.change));
    }
  }

  /** The same tasks further on, none added. */
  ghost predicate SameLength(a: seq<Task>, b: seq<Task>) {
    |a| == |b| && HistoryGrows(a, b)
  }

  lemma KeyedRows(rows: RowsState)
    requires GoodRows(rows.sessions, rows.tasks)
    ensures rows.tasks.Keys == rows.sessions.Keys
  {}

  lemma HasLatest(name: string, sessions: Sessions, tasks: Tasks)
    requires GoodRows(sessions, tasks) && name in sessions
    ensures name in tasks && |tasks[name]| > 0
  {}

  lemma FinishedIsSettled(task: Task, storage: Storage)
    requires task.state.Terminal()
    ensures SeenAs(task, storage, task)
  {}

  lemma SeenIsSettled(before: Task, storage: Storage, seen: Task)
    requires SeenAs(before, storage, seen)
    ensures seen.state.Terminal() ==> SettledAs(before, storage, seen)
    ensures forall canceled | !seen.state.Terminal() && CanceledFrom(seen, canceled) :: SettledAs(before, storage, canceled)
  {}

  lemma SameLengthReflexive(a: seq<Task>)
    ensures SameLength(a, a)
  {}

  lemma NoClaim(name: string, sessions: Sessions, tasks: Tasks, jobs: map<string, set<string>>, claims: set<string>)
    requires Backed(sessions, tasks, jobs, claims) && name in sessions
    ensures sessions[name].definition.storage.Ephemeral? ==> name !in claims
  {}

  lemma NothingUnrecorded(sessions: Sessions, tasks: Tasks, jobs: map<string, set<string>>, claims: set<string>, name: string)
    requires Backed(sessions, tasks, jobs, claims) && name !in sessions
    ensures JobsOf(jobs, name) == {} && name !in claims
  {}

  /** No task became canceled. */
  ghost predicate NoneCanceled(a: seq<Task>, b: seq<Task>) {
    |a| == |b| && forall i | 0 <= i < |a| && b[i].state.TaskCanceled? :: a[i].state.TaskCanceled?
  }

  lemma HistoryGrowsTransitive(a: seq<Task>, b: seq<Task>, c: seq<Task>)
    requires HistoryGrows(a, b) && HistoryGrows(b, c)
    ensures HistoryGrows(a, c)
  {
    forall i | 0 <= i < |a| ensures TaskMoves(a[i], c[i]) {
      assert TaskMoves(a[i], b[i]) && TaskMoves(b[i], c[i]);
    }
  }

  lemma SameLengthTransitive(a: seq<Task>, b: seq<Task>, c: seq<Task>)
    requires SameLength(a, b) && SameLength(b, c)
    ensures SameLength(a, c)
  {
    HistoryGrowsTransitive(a, b, c);
  }

  lemma ReplacedSameLength(a: seq<Task>, b: seq<Task>, task: Task)
    requires SameLength(a, b) && |b| > 0 && TaskMoves(Latest(b), task)
    ensures SameLength(a, Replaced(b, task))
  {
    SameLengthTransitive(a, b, Replaced(b, task));
  }

  lemma HistoryExtends(a: seq<Task>, b: seq<Task>, task: Task)
    requires SameLength(a, b)
    ensures HistoryGrows(a, b + [task])
  {
    forall i | 0 <= i < |a| ensures TaskMoves(a[i], (b + [task])[i]) {
      assert TaskMoves(a[i], b[i]);
    }
  }

  /** The queued sessions have a deletion intent. */
  ghost predicate Queued(sessions: Sessions, left: set<string>) {
    forall s | s in left :: s in sessions && sessions[s].deletion.Some?
  }

  /** No other session has one. */
  ghost predicate OnlyQueued(sessions: Sessions, left: set<string>) {
    forall s | s in sessions && s !in left :: sessions[s].deletion.None?
  }

  /** Retrying one session's deletion leaves the rest of the queue as it was. */
  lemma QueueAfterRetry(name: string, storage: bool, a: RowsState, b: RowsState, left: set<string>)
    requires Removing(name, storage, a.sessions, a.tasks, b.sessions, b.tasks) && name !in left && Queued(a.sessions, left + {name})
    ensures Queued(b.sessions, left)
    ensures OnlyQueued(a.sessions, left + {name}) && (name in b.sessions ==> b.sessions[name].deletion.None?) ==> OnlyQueued(b.sessions, left)
  {
    forall s | s != name
      ensures (s in a.sessions <==> s in b.sessions) && (s in a.sessions ==> b.sessions[s] == a.sessions[s])
    {
      OtherKept(name, a.sessions, a.tasks, b.sessions, b.tasks, s);
    }
  }

  /** Retries only move the rows forward, and add none. */
  lemma {:induction false} RetriesMoveRows(trail: seq<RowsState>, i: nat)
    requires Retries(trail) && i < |trail| && trail[0].tasks.Keys == trail[0].sessions.Keys
    ensures RowsMove(trail[0].sessions, trail[0].tasks, trail[i].sessions, trail[i].tasks)
    ensures trail[i].sessions.Keys <= trail[0].sessions.Keys
  {
    if i > 0 {
      RetriesMoveRows(trail, i - 1);
      var a, b := trail[i - 1], trail[i];
      assert Retry(a, b);
      var name, storage :| name in a.sessions && a.sessions[name].deletion == Some(storage)
        && Removing(name, storage, a.sessions, a.tasks, b.sessions, b.tasks);
      RowsMoveFurther(trail[0].sessions, trail[0].tasks, name, a.sessions, a.tasks, b.sessions, b.tasks);
    }
  }

  lemma RowsMoveFurther(s0: Sessions, t0: Tasks, name: string, s1: Sessions, t1: Tasks, s2: Sessions, t2: Tasks)
    requires RowsMove(s0, t0, s1, t1) && s1.Keys <= s0.Keys
    requires t2.Keys == s2.Keys && OthersKept(name, s1, t1, s2, t2) && name in s1
    requires name in s2 ==> s2[name] == s1[name].(deletion := s2[name].deletion) && HistoryGrows(t1[name], t2[name])
    ensures RowsMove(s0, t0, s2, t2) && s2.Keys <= s0.Keys
  {
    forall s | s in s2 ensures s in s0 && s2[s] == s0[s].(deletion := s2[s].deletion) && HistoryGrows(t0[s], t2[s]) {
      if s != name {
        OtherKept(name, s1, t1, s2, t2, s);
      } else {
        HistoryGrowsTransitive(t0[s], t1[s], t2[s]);
      }
    }
  }
}
