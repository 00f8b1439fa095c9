/** Durable sessions and tasks, and what a runtime observation makes of a task. */
module SessionTasks {
  import opened Prelude
  import opened SessionTypes
  import opened DnsNames

  datatype TaskState = TaskPending | TaskRunning | TaskCompleted | TaskBlocked | TaskFailed | TaskCanceled {
    predicate Terminal() { TaskCompleted? || TaskBlocked? || TaskFailed? || TaskCanceled? }
  }

  datatype Task = Task(
    id: string, prompt: string, timeout: int, resultKind: ResultKind, changeInput: Option<ChangeInput>,
    state: TaskState, artifacts: Artifacts, failure: string, createdAt: int, finishedAt: Option<int>)

  /** The digest input that identifies what a session was started to do; digests are taken to be injective. */
  datatype Intent = Intent(definition: Definition, request: StartRequest, scope: string, image: string)

  datatype Record = Record(
    name: string, intent: Intent, scope: string, image: string, definition: Definition, repository: string,
    initialRef: string, workflowRun: string, workflowStep: string, deletion: Option<bool>, createdAt: int)

  datatype Phase = PhasePending | PhaseRunning | PhaseSucceeded | PhaseFailed | PhaseUnknown

  datatype TaskObservation = TaskObservation(phase: Phase, artifacts: Artifacts, failure: string)

  // ---- Accepting a session ----

  function Normalized(definition: Definition, request: StartRequest): StartRequest {
    request.(
      initialRef := if request.initialRef == "" then "main" else request.initialRef,
      timeout := if request.timeout == 0 then definition.timeout else request.timeout)
  }

  const MAX_AGENT_CONFIG_BYTES := 900 * 1024

  predicate ValidSkills(skills: seq<Skill>) {
    && (forall i | 0 <= i < |skills| :: IsLabel(skills[i].name, 63) && !IsBlank(skills[i].contents))
    && (forall i, j | 0 <= i < j < |skills| :: skills[i].name != skills[j].name)
  }

  function SkillsSize(skills: seq<Skill>): nat {
    if skills == [] then 0 else |skills[0].name| + |skills[0].contents| + SkillsSize(skills[1..])
  }

  /** Every skill counts with its name and its contents. */
  lemma {:induction false} SkillsSizeExactly(skills: seq<Skill>, more: Skill)
    ensures SkillsSize(skills + [more]) == SkillsSize(skills) + |more.name| + |more.contents| && SkillsSize([]) == 0
  {
    if skills != [] {
      assert (skills + [more])[1..] == skills[1..] + [more];
      SkillsSizeExactly(skills[1..], more);
    }
  }

  predicate ValidDefinition(d: Definition) {
    if d.agent == "" then d.instructions == "" && d.skills == []
    else
      && IsLabel(d.agent, 63) && !IsBlank(d.instructions) && ValidSkills(d.skills)
      && |d.instructions| + SkillsSize(d.skills) <= MAX_AGENT_CONFIG_BYTES
  }

  /** A session definition as agent loading leaves it: nothing about it makes a start invalid. */
  predicate ValidAgent(d: Definition) {
    ValidDefinition(d) && d.storageSize != "" && d.cloneDepth >= 0 && d.timeout > 0
  }

  predicate ValidChangeInput(input: ChangeInput, name: string) {
    IsLabel(input.session, SESSION_NAME_MAX) && input.session != name && ValidChange(input.artifact)
  }

  predicate ValidStart(d: Definition, r: StartRequest) {
    && IsLabel(r.name, SESSION_NAME_MAX)
    && (r.workflowRun == "" <==> r.workflowStep == "")
    && (r.workflowRun != "" ==> IsLabel(r.workflowRun, SESSION_NAME_MAX) && IsLabel(r.workflowStep, TASK_ID_MAX))
    && (r.changeInput.Some? ==> r.workflowRun != "" && ValidChangeInput(r.changeInput.value, r.name))
    && !IsBlank(r.repository) && r.initialRef != "" && d.storageSize != "" && d.cloneDepth >= 0
    && r.timeout > 0 && !IsBlank(r.prompt) && ValidDefinition(d)
    && (r.resultKind.WorkflowChange? ==> r.workflowRun != "" && d.storage.Persistent?)
  }

  function InitialRecord(d: Definition, r: StartRequest, scope: string, image: string, at: int): Record {
    Record(r.name, Intent(d, r, scope, image), scope, image, d, r.repository, r.initialRef, r.workflowRun, r.workflowStep, None, at)
  }

  function InitialTask(r: StartRequest, at: int): Task {
    Task(r.name, r.prompt, r.timeout, r.resultKind, r.changeInput, TaskPending, NO_ARTIFACTS, "", at, None)
  }

  // ---- What was asked, field by field ----

  /** Which requests no session is started with. */
  predicate Refused(d: Definition, r: StartRequest) {
    || !IsLabel(r.name, 40)
    || (r.workflowRun == "" && r.workflowStep != "") || (r.workflowRun != "" && r.workflowStep == "")
    || (r.workflowRun != "" && !(IsLabel(r.workflowRun, 40) && IsLabel(r.workflowStep, 63)))
    || (r.changeInput.Some? && RefusedInput(r.changeInput.value, r))
    || IsBlank(r.repository) || IsBlank(r.prompt)
    || d.storageSize == "" || d.cloneDepth < 0
    || r.timeout < 0 || (r.timeout == 0 && d.timeout <= 0)
    || RefusedAgent(d)
    || (r.resultKind.WorkflowChange? && (r.workflowRun == "" || d.storage.Ephemeral?))
  }

  predicate RefusedInput(input: ChangeInput, r: StartRequest) {
    || r.workflowRun == "" || !IsLabel(input.session, 40) || input.session == r.name
    || !IsHex(input.artifact.sha256, 64) || input.artifact.bytes <= 0
  }

  predicate RefusedAgent(d: Definition) {
    if d.agent == "" then d.instructions != "" || d.skills != []
    else
      || !IsLabel(d.agent, 63) || IsBlank(d.instructions)
      || (exists i :: 0 <= i < |d.skills| && (!IsLabel(d.skills[i].name, 63) || IsBlank(d.skills[i].contents)))
      || (exists i, j :: 0 <= i < j < |d.skills| && d.skills[i].name == d.skills[j].name)
      || |d.instructions| + SkillsSize(d.skills) > 921_600
  }

  /** The validation refuses exactly these, whatever defaults it fills in first. */
  lemma RefusedExactly(d: Definition, r: StartRequest)
    ensures ValidStart(d, Normalized(d, r)) <==> !Refused(d, r)
  {
    hide IsLabel, IsBlank, IsHex;
    assert ValidDefinition(d) <==> !RefusedAgent(d);
  }

  /** A session's row is about what it was started to do, and so is its first task. */
  predicate AsIntended(record: Record, first: Task) {
    && record.name == record.intent.request.name
    && record.repository == record.intent.request.repository && record.initialRef == record.intent.request.initialRef
    && record.workflowRun == record.intent.request.workflowRun && record.workflowStep == record.intent.request.workflowStep
    && record.definition == record.intent.definition && record.scope == record.intent.scope && record.image == record.intent.image
    && first.id == record.intent.request.name && first.prompt == record.intent.request.prompt
    && first.timeout == record.intent.request.timeout && first.resultKind == record.intent.request.resultKind
    && first.changeInput == record.intent.request.changeInput
  }

  lemma StillIntended(record: Record, intent: Option<bool>, first: Task, next: Task)
    requires AsIntended(record, first) && TaskMoves(first, next)
    ensures AsIntended(record.(deletion := intent), next)
  {}

  /** The row and the first task of a session that was asked for so, with what the request leaves out filled in. */
  predicate AsAsked(d: Definition, r: StartRequest, scope: string, image: string, record: Record, first: Task) {
    && record.name == r.name && record.repository == r.repository
    && record.initialRef == (if r.initialRef == "" then "main" else r.initialRef)
    && record.definition == d && record.scope == scope && record.image == image
    && record.workflowRun == r.workflowRun && record.workflowStep == r.workflowStep
    && first.id == r.name && first.prompt == r.prompt && first.resultKind == r.resultKind && first.changeInput == r.changeInput
    && first.timeout == (if r.timeout == 0 then d.timeout else r.timeout)
  }

  /** Nothing has happened to the task yet. */
  predicate NotBegun(t: Task) {
    t.state.TaskPending? && t.artifacts == Artifacts(NoOutcome, "", "", None) && t.failure == "" && t.finishedAt.None?
  }

  /** Exactly the sessions that were asked for so have the intent that the request makes. */
  lemma AskedExactly(d: Definition, r: StartRequest, scope: string, image: string, record: Record, first: Task)
    requires AsIntended(record, first)
    ensures record.intent == Intent(d, Normalized(d, r), scope, image) <==> AsAsked(d, r, scope, image, record, first)
  {}

  lemma InitialIsIntended(d: Definition, r: StartRequest, scope: string, image: string, at: int)
    ensures AsIntended(InitialRecord(d, r, scope, image, at), InitialTask(r, at))
  {}

  /** What a task's Job is handed. */
  datatype TaskRequest = TaskRequest(
    session: string, task: string, image: string, storage: Storage, repository: string, initialRef: string, setupCommand: string,
    prompt: string, agent: string, instructions: string, skills: seq<Skill>, cloneDepth: int, storageSize: string,
    timeout: int, resultKind: ResultKind, workflowRun: string, workflowStep: string, changeInput: Option<ChangeInput>, resume: bool)

  /** A Job that does this task of this session: everything it is handed is recorded there. */
  predicate RunsTask(q: TaskRequest, record: Record, task: Task) {
    && q.session == record.name && q.image == record.image && q.repository == record.repository && q.initialRef == record.initialRef
    && q.workflowRun == record.workflowRun && q.workflowStep == record.workflowStep
    && q.storage == record.definition.storage && q.storageSize == record.definition.storageSize
    && q.setupCommand == record.definition.setupCommand && q.cloneDepth == record.definition.cloneDepth
    && q.agent == record.definition.agent && q.instructions == record.definition.instructions && q.skills == record.definition.skills
    && q.task == task.id && q.prompt == task.prompt && q.timeout == task.timeout
    && q.resultKind == task.resultKind && q.changeInput == task.changeInput
  }

  // ---- Observing a task ----

  datatype TaskError =
    | UnsupportedPhase | UndecodableOutcome | UnsupportedStatus(status: string)
    | NoPullRequest | NoWorkflowOutput | NoChange | InvalidChange

  function Describe(e: TaskError): string {
    match e
    case UnsupportedPhase => "runtime returned unsupported task phase"
    case UndecodableOutcome => "decode outcome artifact"
    case UnsupportedStatus(status) => "unsupported outcome status \"" + status + "\""
    case NoPullRequest => "completed task did not report pull request metadata"
    case NoWorkflowOutput => "completed task did not report workflow output"
    case NoChange => "completed workflow change task did not report retained change metadata"
    case InvalidChange => "validate retained change metadata"
  }

  /** What is missing from a completed task's artifacts. */
  function Missing(kind: ResultKind, storage: Storage, a: Artifacts): Option<TaskError> {
    match kind
    case PullRequest =>
      if a.pullRequest == "" then Some(NoPullRequest)
      else if storage.Persistent? && a.change.Some? && !ValidChange(a.change.value) then Some(InvalidChange)
      else None
    case WorkflowOutput => if a.workflowOutput == "" then Some(NoWorkflowOutput) else None
    case WorkflowChange =>
      if a.workflowOutput == "" then Some(NoWorkflowOutput)
      else if a.change.None? then Some(NoChange)
      else if !ValidChange(a.change.value) then Some(InvalidChange)
      else None
  }

  /** A completed task lacks something that its kind requires, or retains a change that nobody can apply. */
  predicate Lacking(kind: ResultKind, storage: Storage, a: Artifacts) {
    || (kind.PullRequest? && a.pullRequest == "") || (!kind.PullRequest? && a.workflowOutput == "")
    || (kind.WorkflowChange? && a.change.None?)
    || (a.change.Some? && (kind.WorkflowChange? || (kind.PullRequest? && storage.Persistent?))
        && !(IsHex(a.change.value.sha256, 64) && a.change.value.bytes > 0))
  }

  predicate StatusReadable(o: Outcome) {
    o.Document? && !o.status.NotText?
  }

  function StateOfStatus(status: string): Option<TaskState> {
    if status == "completed" then Some(TaskCompleted)
    else if status == "blocked" then Some(TaskBlocked)
    else if status == "failed" then Some(TaskFailed)
    else None
  }

  function ApplySuccess(task: Task, o: TaskObservation, storage: Storage, at: int): Result<Task, TaskError> {
    if !StatusReadable(o.artifacts.outcome) then Failure(UndecodableOutcome)
    else
      var status := TextOf(o.artifacts.outcome.status);
      var state := StateOfStatus(status);
      if state.None? then Failure(UnsupportedStatus(status))
      else
        var missing := if state.value.TaskCompleted? then Missing(task.resultKind, storage, o.artifacts) else None;
        if missing.Some? then Failure(missing.value)
        else Success(task.(state := state.value, artifacts := o.artifacts, failure := o.failure, finishedAt := Some(at)))
  }

  function ApplyObservation(task: Task, o: TaskObservation, storage: Storage, at: int): Result<Task, TaskError> {
    match o.phase
    case PhasePending => Success(task.(state := TaskPending, failure := o.failure))
    case PhaseRunning => Success(task.(state := TaskRunning, failure := o.failure))
    case PhaseFailed => Success(task.(state := TaskFailed, artifacts := o.artifacts, failure := o.failure, finishedAt := Some(at)))
    case PhaseSucceeded => ApplySuccess(task, o, storage, at)
    case PhaseUnknown => Failure(UnsupportedPhase)
  }

  /** The observed task; an observation that cannot be applied fails it. */
  function Observed(task: Task, o: TaskObservation, storage: Storage, at: int): Task {
    match ApplyObservation(task, o, storage, at)
    case Success(t) => t
    case Failure(e) => task.(state := TaskFailed, failure := Describe(e), finishedAt := Some(at))
  }

  // ---- What every task history keeps ----

  /** The artifacts a completed task's result kind requires. */
  predicate Carries(t: Task) {
    match t.resultKind
    case PullRequest => t.artifacts.pullRequest != ""
    case WorkflowOutput => t.artifacts.workflowOutput != ""
    case WorkflowChange =>
      t.artifacts.workflowOutput != "" && t.artifacts.change.Some? && ValidChange(t.artifacts.change.value)
  }

  /** Finished exactly when terminal, with an outcome when completed or blocked and the required artifacts when completed. */
  predicate GoodTask(t: Task) {
    && (t.finishedAt.Some? <==> t.state.Terminal())
    && (t.state.TaskCompleted? ==> Carries(t) && StatusReadable(t.artifacts.outcome) && t.artifacts.outcome.status == Text("completed"))
    && (t.state.TaskBlocked? ==> StatusReadable(t.artifacts.outcome) && t.artifacts.outcome.status == Text("blocked"))
  }

  /** Only the latest task may be unfinished. */
  predicate GoodHistory(tasks: seq<Task>) {
    && |tasks| > 0
    && (forall i | 0 <= i < |tasks| :: GoodTask(tasks[i]))
    && (forall i | 0 <= i < |tasks| - 1 :: tasks[i].state.Terminal())
    && (forall i, j | 0 <= i < j < |tasks| :: tasks[i].id != tasks[j].id)
  }

  function Latest(tasks: seq<Task>): Task
    requires |tasks| > 0
  {
    tasks[|tasks| - 1]
  }

  /** The same task further on; a finished task is unchanged. */
  predicate TaskMoves(a: Task, b: Task) {
    && b == a.(state := b.state, artifacts := b.artifacts, failure := b.failure, finishedAt := b.finishedAt)
    && (a.state.Terminal() ==> b == a)
  }

  predicate HistoryGrows(a: seq<Task>, b: seq<Task>) {
    && |a| <= |b|
    && forall i | 0 <= i < |a| :: TaskMoves(a[i], b[i])
  }

  /** Observing an unfinished task keeps it the same task in good order. */
  lemma ObservedIsGood(task: Task, o: TaskObservation, storage: Storage, at: int)
    requires GoodTask(task) && !task.state.Terminal()
    ensures var t := Observed(task, o, storage, at); GoodTask(t) && TaskMoves(task, t)
  {
    if o.phase.PhaseSucceeded? && StatusReadable(o.artifacts.outcome) {
      var status := TextOf(o.artifacts.outcome.status);
      assert status == "completed" ==> o.artifacts.outcome.status == Text("completed");
      assert status == "blocked" ==> o.artifacts.outcome.status == Text("blocked");
    }
  }

  /** Exactly which observations complete or block a task, and that only those and unfinished ones leave it from failing. */
  lemma ObservedVerdict(task: Task, o: TaskObservation, storage: Storage, at: int)
    ensures var t := Observed(task, o, storage, at);
            && (t.state.TaskCompleted? <==>
                  && o.phase.PhaseSucceeded? && StatusReadable(o.artifacts.outcome)
                  && o.artifacts.outcome.status == Text("completed") && !Lacking(task.resultKind, storage, o.artifacts))
            && (t.state.TaskBlocked? <==>
                  && o.phase.PhaseSucceeded? && StatusReadable(o.artifacts.outcome) && o.artifacts.outcome.status == Text("blocked"))
            && (t.state.TaskPending? <==> o.phase.PhasePending?)
            && (t.state.TaskRunning? <==> o.phase.PhaseRunning?)
            && !t.state.TaskCanceled?
            && (t.state.TaskCompleted? || t.state.TaskBlocked? ==> t.artifacts == o.artifacts)
  {
    if o.phase.PhaseSucceeded? && StatusReadable(o.artifacts.outcome) {
      var status := TextOf(o.artifacts.outcome.status);
      assert status == "completed" ==> o.artifacts.outcome.status == Text("completed");
      assert status == "blocked" ==> o.artifacts.outcome.status == Text("blocked");
    }
  }

  /** What an observation leaves in the task: the artifacts of every end that can be read, a failure's included, and of no other. */
  lemma ObservedRecords(task: Task, o: TaskObservation, storage: Storage, at: int)
    requires !task.state.Terminal()
    ensures var t := Observed(task, o, storage, at);
            var status := if o.artifacts.outcome.Document? then o.artifacts.outcome.status else Absent;
            var readable :=
              || o.phase.PhaseFailed?
              || (o.phase.PhaseSucceeded? && (status == Text("failed") || status == Text("blocked")
                  || (status == Text("completed") && !Lacking(task.resultKind, storage, o.artifacts))));
            && t.artifacts == (if readable then o.artifacts else task.artifacts)
            && (readable || o.phase.PhasePending? || o.phase.PhaseRunning? ==> t.failure == o.failure)
            && (t.state.Terminal() ==> t.finishedAt == Some(at)) && (!t.state.Terminal() ==> t.finishedAt == task.finishedAt)
            && (t.state.TaskFailed? <==> !o.phase.PhasePending? && !o.phase.PhaseRunning? && (!readable || o.phase.PhaseFailed? || status == Text("failed")))
  {
    ObservedVerdict(task, o, storage, at);
    if o.phase.PhaseSucceeded? && StatusReadable(o.artifacts.outcome) {
      var status := TextOf(o.artifacts.outcome.status);
      assert status == "failed" ==> o.artifacts.outcome.status == Text("failed");
    }
  }

  /** An unfinished task may be observed running and later pending again. */
  lemma RunningMayBecomePending(task: Task, storage: Storage, at: int)
    requires task.state.TaskRunning?
    ensures Observed(task, TaskObservation(PhasePending, NO_ARTIFACTS, ""), storage, at).state.TaskPending?
  {}
}
