/** Durable workflow runs: their values, what a step is handed, and what a finished session makes of it. */
module WorkflowRun {
  import opened Prelude
  import opened SessionTypes
  import opened Names
  import opened Graphs

  datatype StepState = Pending | Starting | Running | Completed | Blocked | Failed | Canceled | Skipped {
    predicate Active() { Starting? || Running? }
    predicate Terminal() { !Pending? && !Active() }
    /** A dependency in such a state keeps its dependents from ever starting. */
    predicate Fatal() { Terminal() && !Completed? }
    /** The step was dispatched, or is about to be. */
    predicate Begun() { Active() || Completed? || Blocked? || Failed? }
  }

  datatype RunState = RunPending | RunRunning | RunCompleted | RunBlocked | RunFailed | RunCanceled | RunDeleting {
    predicate Terminal() { RunCompleted? || RunBlocked? || RunFailed? || RunCanceled? }
    predicate Ended() { Terminal() || RunDeleting? }
  }

  /** The part of a step that its run's creation fixes. */
  datatype Plan = Plan(
    name: string, agent: string, prompt: string, after: seq<string>, changeFrom: string, publishable: bool,
    session: string)

  /** What a step's session reported. */
  datatype Report = Report(summary: string, blocker: string, output: RawJson, change: Option<ChangeArtifact>)

  datatype Step = Step(
    plan: Plan, state: StepState, report: Report, cleaned: bool, startedAt: Option<int>, finishedAt: Option<int>)

  type Steps = map<string, Step>

  /** The part of a run that its creation fixes. */
  datatype Header = Header(
    name: string, workflow: string, description: string, repository: string, ref: string, prompt: string,
    intent: string, maxParallelism: int, createdAt: int)

  datatype Run = Run(header: Header, state: RunState, cancelRequested: bool, steps: Steps, updatedAt: int)

  function GraphOf(steps: Steps): Graph {
    map n | n in steps :: steps[n].plan.after
  }

  /** The definitions of the steps agree; their progress may differ. */
  ghost predicate SameShape(a: Steps, b: Steps) {
    a.Keys == b.Keys && forall n | n in a :: a[n].plan == b[n].plan
  }

  predicate AllCompleted(steps: Steps, s: Step) {
    forall d | d in s.plan.after :: d in steps && steps[d].state.Completed?
  }

  predicate HasFatal(steps: Steps, s: Step) {
    exists d :: d in s.plan.after && d in steps && steps[d].state.Fatal()
  }

  predicate ProducesChange(steps: Steps, name: string) {
    exists n :: n in steps && steps[n].plan.changeFrom == name
  }

  predicate Has(steps: Steps, state: StepState) {
    exists n :: n in steps && steps[n].state == state
  }

  /** The run state its step states imply; a skipped step never decides it. */
  function RunStateOf(steps: Steps): RunState {
    if Has(steps, Pending) || Has(steps, Starting) || Has(steps, Running) then RunRunning
    else if Has(steps, Failed) then RunFailed
    else if Has(steps, Blocked) then RunBlocked
    else if Has(steps, Canceled) then RunCanceled
    else RunCompleted
  }

  lemma EndedStateMeansTerminalSteps(steps: Steps)
    ensures RunStateOf(steps) == RunRunning <==> exists n :: n in steps && !steps[n].state.Terminal()
  {
    forall n | n in steps ensures Has(steps, steps[n].state) {}
  }

  /** How bad it is that a step, or a run, ended in a state. */
  function Severity(s: StepState): nat {
    match s
    case Failed => 3
    case Blocked => 2
    case Canceled => 1
    case _ => 0
  }

  function RunSeverity(s: RunState): nat {
    match s
    case RunFailed => 3
    case RunBlocked => 2
    case RunCanceled => 1
    case _ => 0
  }

  /** A run whose steps have all ended is as bad as its worst step, and no worse. */
  lemma WorstStepDecides(steps: Steps)
    requires steps.Keys != {} && forall n | n in steps :: steps[n].state.Terminal()
    ensures forall n | n in steps :: Severity(steps[n].state) <= RunSeverity(RunStateOf(steps))
    ensures exists n :: n in steps && Severity(steps[n].state) == RunSeverity(RunStateOf(steps))
    ensures RunStateOf(steps).Terminal()
  {
    forall n | n in steps ensures Has(steps, steps[n].state) {}
    EndedStateMeansTerminalSteps(steps);
    var n :| n in steps.Keys;
    assert Severity(steps[n].state) <= RunSeverity(RunStateOf(steps));
  }

  // ---- What a step's session is asked to do ----

  /** The outputs of the direct dependencies; a dependency without output has none. */
  function DependencyOutputs(steps: Steps, s: Step): map<string, RawJson> {
    map d | d in s.plan.after :: if d in steps then steps[d].report.output else ""
  }

  function Member(name: string, output: RawJson): string {
    "\"" + name + "\":" + if output == "" then "null" else output
  }

  function Members(names: seq<string>, outputs: map<string, RawJson>): string
    requires forall n | n in names :: n in outputs
  {
    if names == [] then ""
    else Member(names[0], outputs[names[0]]) + (if |names| == 1 then "" else ",") + Members(names[1..], outputs)
  }

  /** A JSON object with its members in key order. */
  function EncodeOutputs(outputs: map<string, RawJson>): string {
    "{" + Members(Sorted(outputs.Keys), outputs) + "}"
  }

  const GOAL := "Workflow goal:\n"
  const TASK := "\n\nStep task:\n"
  const OUTPUTS := "\n\nDirect dependency outputs (JSON):\n"

  function StepPrompt(header: Header, steps: Steps, s: Step): string {
    GOAL + header.prompt + TASK + s.plan.prompt + OUTPUTS + EncodeOutputs(DependencyOutputs(steps, s))
  }

  function ResultKindOf(steps: Steps, s: Step): ResultKind {
    if s.plan.publishable then PullRequest
    else if ProducesChange(steps, s.plan.name) then WorkflowChange
    else WorkflowOutput
  }

  /** Whether the step's change source, if it has one, has recorded its change. */
  predicate HandoffReady(steps: Steps, s: Step) {
    s.plan.changeFrom == "" || (s.plan.changeFrom in steps && steps[s.plan.changeFrom].report.change.Some?)
  }

  function ChangeInputOf(steps: Steps, s: Step): Option<ChangeInput>
    requires HandoffReady(steps, s)
  {
    if s.plan.changeFrom == "" then None
    else Some(ChangeInput(steps[s.plan.changeFrom].plan.session, steps[s.plan.changeFrom].report.change.value))
  }

  function Request(header: Header, steps: Steps, s: Step): StartRequest
    requires HandoffReady(steps, s)
  {
    StartRequest(s.plan.session, header.repository, header.ref, StepPrompt(header, steps, s), 0, ResultKindOf(steps, s),
                 header.name, s.plan.name, ChangeInputOf(steps, s))
  }

  predicate IsInfix(part: string, whole: string) {
    exists i :: 0 <= i <= |whole| - |part| && whole[i..][..|part|] == part
  }

  lemma InfixOfConcat(before: string, part: string, after: string)
    ensures IsInfix(part, before + part + after)
  {
    var whole := before + part + after;
    assert whole[|before|..][..|part|] == part;
  }

  lemma {:induction false} MembersContain(names: seq<string>, outputs: map<string, RawJson>, n: string)
    returns (before: string, after: string)
    requires forall m | m in names :: m in outputs
    requires n in names
    ensures Members(names, outputs) == before + Member(n, outputs[n]) + after
  {
    var tail := (if |names| == 1 then "" else ",") + Members(names[1..], outputs);
    if names[0] == n {
      before, after := "", tail;
      assert "" + Member(n, outputs[n]) == Member(n, outputs[n]);
    } else {
      var b, a := MembersContain(names[1..], outputs, n);
      before, after := Member(names[0], outputs[names[0]]) + (if |names| == 1 then "" else ",") + b, a;
    }
  }

  lemma InfixTransitive(a: string, b: string, c: string)
    requires IsInfix(a, b) && IsInfix(b, c)
    ensures IsInfix(a, c)
  {
    var i :| 0 <= i <= |b| - |a| && b[i..][..|a|] == a;
    var j :| 0 <= j <= |c| - |b| && c[j..][..|b|] == b;
    forall k | 0 <= k < |a| ensures c[j + i..][..|a|][k] == a[k] {
      assert a[k] == b[i..][..|a|][k] == b[i + k];
      assert b[i + k] == c[j..][..|b|][i + k] == c[j + i + k];
    }
    assert c[j + i..][..|a|] == a;
  }

  lemma SixParts(g: string, p: string, t: string, s: string, j: string, o: string)
    ensures IsInfix(p, g + p + t + s + j + o)
    ensures IsInfix(s, g + p + t + s + j + o)
    ensures IsInfix(o, g + p + t + s + j + o)
  {
    var whole := g + p + t + s + j + o;
    assert whole == g + p + (t + s + j + o);
    InfixOfConcat(g, p, t + s + j + o);
    assert whole == (g + p + t) + s + (j + o);
    InfixOfConcat(g + p + t, s, j + o);
    assert whole == (g + p + t + s + j) + o + "";
    InfixOfConcat(g + p + t + s + j, o, "");
  }

  lemma EncodedMember(outputs: map<string, RawJson>, d: string)
    requires d in outputs
    ensures IsInfix(Member(d, outputs[d]), EncodeOutputs(outputs))
  {
    var members := Members(Sorted(outputs.Keys), outputs);
    var b, a := MembersContain(Sorted(outputs.Keys), outputs, d);
    InfixOfConcat(b, Member(d, outputs[d]), a);
    InfixOfConcat("{", members, "}");
    InfixTransitive(Member(d, outputs[d]), members, "{" + members + "}");
  }

  /** A step's prompt carries the run's goal, its own task, and every direct dependency's output under its name. */
  lemma PromptCarries(header: Header, steps: Steps, s: Step, d: string)
    requires d in s.plan.after && d in steps
    ensures IsInfix(header.prompt, StepPrompt(header, steps, s))
    ensures IsInfix(s.plan.prompt, StepPrompt(header, steps, s))
    ensures IsInfix(Member(d, steps[d].report.output), StepPrompt(header, steps, s))
  {
    var outputs := DependencyOutputs(steps, s);
    SixParts(GOAL, header.prompt, TASK, s.plan.prompt, OUTPUTS, EncodeOutputs(outputs));
    EncodedMember(outputs, d);
    InfixTransitive(Member(d, steps[d].report.output), EncodeOutputs(outputs), StepPrompt(header, steps, s));
  }

  // ---- What a finished session makes of a step ----

  /** The session component's answer about a running step's latest task. */
  datatype SessionReply = Unfinished | Stopped | Reported(artifacts: Artifacts)

  datatype Observation = Observation(reply: SessionReply, at: int)

  datatype StepError = UndecodableOutcome | UnsupportedStatus(status: string) | NoPullRequest | NoWorkflowOutput | NoChange

  function Message(e: StepError): string {
    match e
    case UndecodableOutcome => "decode outcome"
    case UnsupportedStatus(status) => "unsupported outcome status \"" + status + "\""
    case NoPullRequest => "completed publishable step did not report pull request metadata"
    case NoWorkflowOutput => "completed workflow step did not report workflow output"
    case NoChange => "completed workflow change step did not report retained change metadata"
  }

  predicate Decodable(o: Outcome) {
    o.Document? && !o.status.NotText? && !o.summary.NotText? && !o.blocker.NotText?
  }

  /** Applies a finished session's artifacts; on an error the step may be left partly updated. */
  function ApplyStepArtifacts(step: Step, a: Artifacts, requiresChange: bool): (Step, Option<StepError>) {
    if !Decodable(a.outcome) then (step, Some(UndecodableOutcome))
    else
      var told := step.report.(summary := TextOf(a.outcome.summary), blocker := TextOf(a.outcome.blocker));
      var status := TextOf(a.outcome.status);
      if status == "blocked" then (step.(report := told, state := Blocked), None)
      else if status == "failed" then (step.(report := told, state := Failed), None)
      else if status != "completed" then (step.(report := told), Some(UnsupportedStatus(status)))
      else
        var (report, err) := ApplyResult(told, step.plan.publishable, a, requiresChange);
        (step.(report := report, state := if err.Some? then step.state else Completed), err)
  }

  /** The artifacts of a completed outcome. */
  function ApplyResult(told: Report, publishable: bool, a: Artifacts, requiresChange: bool): (Report, Option<StepError>) {
    if publishable && a.pullRequest == "" then (told, Some(NoPullRequest))
    else if !publishable && a.workflowOutput == "" then (told, Some(NoWorkflowOutput))
    else
      var kept := if publishable then told else told.(output := a.workflowOutput);
      if !requiresChange then (kept, None)
      else if a.change.None? then (kept, Some(NoChange))
      else (kept.(change := a.change), None)
  }

  function ObserveStep(step: Step, o: Observation, requiresChange: bool): Step {
    match o.reply
    case Unfinished => step
    case Stopped => step.(state := Failed, report := step.report.(summary := "agent session failed"), finishedAt := Some(o.at))
    case Reported(a) =>
      var (s, err) := ApplyStepArtifacts(step.(finishedAt := Some(o.at)), a, requiresChange);
      if err.Some? then s.(state := Failed, report := s.report.(summary := Message(err.value))) else s
  }

  /** The artifacts a completed step must have reported. */
  predicate Sufficient(step: Step, a: Artifacts, requiresChange: bool) {
    && (if step.plan.publishable then a.pullRequest != "" else a.workflowOutput != "")
    && (requiresChange ==> a.change.Some?)
  }

  /** Exactly when a reported outcome completes or blocks a step; otherwise the step fails. */
  lemma ReportedVerdict(step: Step, a: Artifacts, at: int, requiresChange: bool)
    ensures var s := ObserveStep(step, Observation(Reported(a), at), requiresChange);
            && (s.state.Completed? || s.state.Blocked? || s.state.Failed?)
            && (s.state.Completed? <==> Decodable(a.outcome) && a.outcome.status == Text("completed") && Sufficient(step, a, requiresChange))
            && (s.state.Blocked? <==> Decodable(a.outcome) && a.outcome.status == Text("blocked"))
  {
    var status := TextOf(if a.outcome.Document? then a.outcome.status else Absent);
    assert status == "completed" ==> a.outcome.status == Text("completed");
    assert status == "blocked" ==> a.outcome.status == Text("blocked");
  }

  /** What a reported outcome records: always the time, and for a completed or blocked step what was reported. */
  lemma ReportedResult(step: Step, a: Artifacts, at: int, requiresChange: bool)
    ensures var s := ObserveStep(step, Observation(Reported(a), at), requiresChange);
            && s.plan == step.plan && s.cleaned == step.cleaned && s.startedAt == step.startedAt && s.finishedAt == Some(at)
            && (!s.state.Failed? || (Decodable(a.outcome) && a.outcome.status == Text("failed")) ==>
                  s.report.summary == TextOf(a.outcome.summary) && s.report.blocker == TextOf(a.outcome.blocker))
            && (s.state.Completed? ==>
                  && s.report.output == (if step.plan.publishable then step.report.output else a.workflowOutput)
                  && s.report.change == (if requiresChange then a.change else step.report.change))
            && (s.state.Blocked? || !a.outcome.Document? || a.outcome.status != Text("completed") ==>
                  s.report.output == step.report.output && s.report.change == step.report.change)
  {}

  /** Exactly when a step that fails is left with a new output: its change is missing and nothing else is. */
  lemma {:induction false} OutputOnFailureExactly(step: Step, a: Artifacts, at: int, requiresChange: bool)
    ensures var s := ObserveStep(step, Observation(Reported(a), at), requiresChange);
            (s.state.Failed? && s.report.output != step.report.output) <==>
              && Decodable(a.outcome) && a.outcome.status == Text("completed")
              && !step.plan.publishable && a.workflowOutput != "" && a.workflowOutput != step.report.output
              && requiresChange && a.change.None?
  {
    ReportedVerdict(step, a, at, requiresChange);
  }

  /** Taken alone, applying artifacts can leave an output on a step that then fails. */
  lemma OutputOnFailedStep(step: Step, at: int)
    requires !step.plan.publishable
    ensures var a := Artifacts(Document(Text("completed"), Text(""), Text("")), "", "{}", None);
            var s := ObserveStep(step, Observation(Reported(a), at), true);
            s.state.Failed? && s.report.output == "{}"
  {}

  // ---- One reconcile pass over the steps ----

  function StartAll(steps: Steps): Steps {
    map n | n in steps :: if steps[n].state.Starting? then steps[n].(state := Running) else steps[n]
  }

  function ObserveAll(steps: Steps, observed: map<string, Observation>): Steps {
    map n | n in steps ::
      if steps[n].state.Running? && n in observed then ObserveStep(steps[n], observed[n], ProducesChange(steps, n))
      else steps[n]
  }

  function CancelStep(s: Step, at: int): Step {
    if s.state.Pending? || s.state.Active() then s.(state := Canceled, finishedAt := Some(at)) else s
  }

  predicate NeedsCleanup(s: Step) {
    !s.plan.publishable && s.state.Completed? && !s.cleaned
  }

  predicate ToBeCleaned(run: Run) {
    exists n :: n in run.steps && NeedsCleanup(run.steps[n])
  }

  function CleanStep(s: Step): Step {
    if NeedsCleanup(s) then s.(cleaned := true) else s
  }

  lemma ShapeKeepsGraph(a: Steps, b: Steps)
    requires SameShape(a, b)
    ensures GraphOf(a) == GraphOf(b)
    ensures forall n :: ProducesChange(a, n) <==> ProducesChange(b, n)
  {
    forall n ensures ProducesChange(a, n) <==> ProducesChange(b, n) {
      if ProducesChange(a, n) {
        var m :| m in a && a[m].plan.changeFrom == n;
        assert m in b && b[m].plan.changeFrom == n;
      }
      if ProducesChange(b, n) {
        var m :| m in b && b[m].plan.changeFrom == n;
        assert m in a && a[m].plan.changeFrom == n;
      }
    }
  }
}
