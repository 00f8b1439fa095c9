/** What a start request is checked for, and the run it creates. */
module RunCreation {
  import Catalog
  import opened Prelude
  import opened Graphs
  import opened SessionTypes
  import opened SessionTasks
  import opened SessionStore
  import opened WorkflowRun
  import opened RunMoves
  import opened RunHistory
  import opened WorkflowStore
  import opened Accounting
  import opened DnsNames

  datatype RunRequest = RunRequest(workflow: string, name: string, repository: string, ref: string, prompt: string)

  type Workflows = map<string, Catalog.WorkflowDefinition>

  type RunDigest = (RunRequest, Catalog.WorkflowDefinition) -> string

  predicate AcceptableRun(catalog: Workflows, request: RunRequest) {
    && request.workflow in catalog && IsLabel(request.name, RUN_NAME_MAX)
    && !IsBlank(request.repository) && !IsBlank(request.prompt)
  }

  function Defaulted(request: RunRequest): RunRequest {
    if request.ref == "" then request.(ref := "main") else request
  }

  function FreshStep(d: Catalog.StepDefinition, n: string, run: string, stepDigest: StepDigest): Step {
    Step(Plan(n, d.agent, d.prompt, d.after, d.changeFrom, d.publishable, SessionName(run, n, stepDigest)),
         Pending, Report("", "", "", None), false, None, None)
  }

  function FreshSteps(definition: Catalog.WorkflowDefinition, run: string, stepDigest: StepDigest): Steps {
    map n | n in definition.steps :: FreshStep(definition.steps[n], n, run, stepDigest)
  }

  /** What loading establishes about a workflow: the step rules, and one valid session definition for each agent. */
  ghost predicate Configured(definition: Catalog.WorkflowDefinition) {
    && Catalog.ValidSteps(definition.steps) && definition.maxParallelism >= 1 && definition.steps != map[]
    && (exists rank :: Ranks(rank, Catalog.DefinitionGraph(definition.steps)))
    && (forall n | n in definition.steps :: IsLabel(n, TASK_ID_MAX) && ValidAgent(definition.steps[n].session))
    && forall m, n | m in definition.steps && n in definition.steps && definition.steps[m].agent == definition.steps[n].agent ::
         definition.steps[m].session == definition.steps[n].session
  }

  /** Every workflow that loads is configured. */
  lemma LoadedIsConfigured(name: string, raw: Catalog.DefinitionFile, agents: Catalog.AgentCatalog)
    requires Catalog.Acceptable(name, raw, agents) && forall a | a in agents :: ValidAgent(agents[a])
    requires exists rank :: Ranks(rank, Catalog.DefinitionGraph(Catalog.DefinitionOf(name, raw, agents).steps))
    ensures Configured(Catalog.DefinitionOf(name, raw, agents))
  {
    hide Catalog.ValidSteps, ValidAgent, IsLabel;
    var steps := Catalog.StepsOf(raw, agents);
    assert forall n | n in raw.steps :: n in steps && Catalog.ValidStep(n, raw.steps[n], agents) && steps[n].session == agents[steps[n].agent];
    assert raw.steps.Keys != {};
    var some :| some in raw.steps;
    assert some in steps;
  }

  ghost predicate Resolves(definition: Catalog.WorkflowDefinition, defs: Snapshots) {
    forall n | n in definition.steps ::
      definition.steps[n].agent in defs && defs[definition.steps[n].agent] == definition.steps[n].session
  }

  ghost predicate IsRunFor(run: Run, request: RunRequest, definition: Catalog.WorkflowDefinition,
                           digest: RunDigest, stepDigest: StepDigest) {
    && run.header.name == request.name && run.header.workflow == definition.name
    && run.header.description == definition.description
    && run.header.repository == request.repository && run.header.ref == Defaulted(request).ref && run.header.prompt == request.prompt
    && run.header.intent == digest(Defaulted(request), definition) && run.header.maxParallelism == definition.maxParallelism
    && run.steps == FreshSteps(definition, request.name, stepDigest)
    && Fresh(run)
  }

  /** A step as it was defined, its session named after the run, and nothing done yet. */
  ghost predicate StepCreatedAs(n: string, s: Step, d: Catalog.StepDefinition, run: string, stepDigest: StepDigest) {
    && s.plan.name == n && s.plan.agent == d.agent && s.plan.prompt == d.prompt && s.plan.after == d.after
    && s.plan.changeFrom == d.changeFrom && s.plan.publishable == d.publishable
    && s.plan.session == run + "-" + stepDigest(n)
    && s.state.Pending? && s.report.summary == "" && s.report.blocker == "" && s.report.output == "" && s.report.change.None?
    && !s.cleaned && s.startedAt.None? && s.finishedAt.None?
  }

  /** A pending run of exactly the defined steps, for what the request asks, on the ref it names or else on main. */
  ghost predicate CreatedAs(run: Run, request: RunRequest, definition: Catalog.WorkflowDefinition, stepDigest: StepDigest) {
    && run.header.name == request.name && run.header.workflow == definition.name && run.header.description == definition.description
    && run.header.repository == request.repository && run.header.prompt == request.prompt
    && run.header.ref == (if request.ref == "" then "main" else request.ref)
    && run.header.maxParallelism == definition.maxParallelism
    && run.state.RunPending? && !run.cancelRequested
    && run.steps.Keys == definition.steps.Keys
    && forall n | n in definition.steps :: StepCreatedAs(n, run.steps[n], definition.steps[n], request.name, stepDigest)
  }

  lemma CreatedExactly(run: Run, request: RunRequest, definition: Catalog.WorkflowDefinition, digest: RunDigest, stepDigest: StepDigest)
    requires IsRunFor(run, request, definition, digest, stepDigest)
    ensures CreatedAs(run, request, definition, stepDigest)
  {}

  lemma RunForNames(run: Run, request: RunRequest, definition: Catalog.WorkflowDefinition, digest: RunDigest, stepDigest: StepDigest)
    requires IsRunFor(run, request, definition, digest, stepDigest)
    ensures run.header.name == request.name && run.header.intent == digest(Defaulted(request), definition)
  {}

  lemma AcceptedRequest(catalog: Workflows, request: RunRequest)
    requires AcceptableRun(catalog, request)
    ensures request.workflow in catalog && IsLabel(request.name, RUN_NAME_MAX) && !IsBlank(request.repository)
  {}

  /** Its sessions have names of their own, nobody has used them, and nothing was started for a run of this name. */
  ghost predicate Unused(run: Run, sessions: Sessions) {
    && DistinctSessions(run.steps)
    && SessionsOf(run.steps) !! sessions.Keys
    && forall s | s in sessions :: sessions[s].workflowRun != run.header.name
  }

  /** What one step is created with. */
  lemma CreatedStep(definition: Catalog.WorkflowDefinition, run: string, stepDigest: StepDigest, n: string)
    requires n in definition.steps
    ensures var steps := FreshSteps(definition, run, stepDigest);
            && steps.Keys == definition.steps.Keys && steps[n] == FreshStep(definition.steps[n], n, run, stepDigest)
  {}

  lemma NamedStep(run: string, step: string, stepDigest: StepDigest)
    requires Hexadecimal(stepDigest)
    ensures var s := SessionName(run, step, stepDigest); |s| == |run| + 1 + DIGEST_LENGTH && s[..|run|] == run
  {
    assert |stepDigest(step)| == DIGEST_LENGTH;
  }

  lemma NoBlankStep(steps: map<string, Catalog.StepDefinition>)
    requires forall n | n in steps :: IsLabel(n, TASK_ID_MAX)
    ensures "" !in steps
  {}

  /** The rank of a definition's graph is one of its runs' graphs too. */
  lemma CreatedPlan(header: Header, definition: Catalog.WorkflowDefinition, run: string, stepDigest: StepDigest) returns (rank: Rank)
    requires Configured(definition) && header.maxParallelism == definition.maxParallelism
    ensures Planned(header, FreshSteps(definition, run, stepDigest), rank)
  {
    hide IsLabel, ValidAgent, Catalog.ValidSteps, Ranks, FreshSteps, GraphOf, Catalog.DefinitionGraph;
    rank :| Ranks(rank, Catalog.DefinitionGraph(definition.steps));
    NoBlankStep(definition.steps);
    CreatedGraph(definition, run, stepDigest);
    CreatedSources(definition, run, stepDigest);
  }

  lemma CreatedGraph(definition: Catalog.WorkflowDefinition, run: string, stepDigest: StepDigest)
    ensures var steps := FreshSteps(definition, run, stepDigest);
            && GraphOf(steps) == Catalog.DefinitionGraph(definition.steps) && steps.Keys == definition.steps.Keys
            && forall n | n in steps :: steps[n].plan.name == n
  {
    hide SessionName;
  }

  lemma CreatedSources(definition: Catalog.WorkflowDefinition, run: string, stepDigest: StepDigest)
    requires Catalog.ValidSteps(definition.steps)
    ensures var steps := FreshSteps(definition, run, stepDigest);
            forall n | n in steps && steps[n].plan.changeFrom != "" ::
              && steps[n].plan.changeFrom in steps[n].plan.after && steps[n].plan.changeFrom in steps
              && !steps[steps[n].plan.changeFrom].plan.publishable
  {
    hide Catalog.ValidSteps, SessionName;
    forall n | n in definition.steps && definition.steps[n].changeFrom != ""
      ensures definition.steps[n].changeFrom in definition.steps[n].after && definition.steps[n].changeFrom in definition.steps
      ensures !definition.steps[definition.steps[n].changeFrom].publishable
    {
      Catalog.HandoffSource(definition.steps, n);
    }
  }

  /** A created run is fresh and planned, and its sessions carry its name. */
  lemma CreatedRun(run: Run, request: RunRequest, definition: Catalog.WorkflowDefinition,
                   digest: RunDigest, stepDigest: StepDigest, at: int)
    requires Configured(definition) && Hexadecimal(stepDigest)
    requires run == Run(Header(request.name, definition.name, definition.description, request.repository, Defaulted(request).ref,
                               request.prompt, digest(Defaulted(request), definition), definition.maxParallelism, at),
                        RunPending, false, FreshSteps(definition, request.name, stepDigest), at)
    ensures Storable(run) && IsRunFor(run, request, definition, digest, stepDigest)
  {
    hide Planned, Hexadecimal, Catalog.ValidSteps, FreshSteps, SessionName, Ranks;
    var rank := CreatedPlan(run.header, definition, request.name, stepDigest);
    forall n | n in definition.steps
      ensures n in run.steps && run.steps[n] == FreshStep(definition.steps[n], n, request.name, stepDigest)
    {
      CreatedStep(definition, request.name, stepDigest, n);
    }
    forall n | n in run.steps ensures n in definition.steps {
      var some :| some in definition.steps;
      CreatedStep(definition, request.name, stepDigest, some);
    }
    forall n | n in run.steps
      ensures var session := run.steps[n].plan.session;
              |session| == |run.header.name| + 1 + DIGEST_LENGTH && session[..|run.header.name|] == run.header.name
    {
      NamedStep(request.name, n, stepDigest);
    }
  }

  /** A new run whose names are unused is accounted for. */
  lemma CreatedAccounted(run: Run, request: RunRequest, definition: Catalog.WorkflowDefinition, defs: Snapshots,
                         digest: RunDigest, stepDigest: StepDigest, server: Server, sessions: Sessions, tasks: Tasks)
    requires Configured(definition) && Resolves(definition, defs) && Hexadecimal(stepDigest) && tasks.Keys == sessions.Keys
    requires IsLabel(request.name, RUN_NAME_MAX) && !IsBlank(request.repository)
    requires IsRunFor(run, request, definition, digest, stepDigest) && Unused(run, sessions)
    ensures Accounted(run, defs, server, sessions, tasks)
  {
    hide Hexadecimal, Accounted, Configured, Resolves, Presentable, SourcesRetain, Unused, IsLabel, IsBlank, Fresh;
    CreatedPresentable(run, request, definition, defs, digest, stepDigest);
    SourcesResolved(run, definition, defs, stepDigest);
    UnusedAccounted(run, defs, server, sessions, tasks);
  }

  lemma UnusedAccounted(run: Run, defs: Snapshots, server: Server, sessions: Sessions, tasks: Tasks)
    requires Fresh(run) && Unused(run, sessions) && tasks.Keys == sessions.Keys
    requires Presentable(run, defs) && SourcesRetain(run.steps, defs)
    ensures Accounted(run, defs, server, sessions, tasks)
  {
    hide Presentable, SourcesRetain, DistinctSessions, Dispatched;
    forall n | n in run.steps ensures StepAccounted(run, defs, server, sessions, tasks, n) {
      SessionOf(run.steps, n);
      assert run.steps[n].plan.session !in sessions.Keys;
    }
  }

  lemma SourcesResolved(run: Run, definition: Catalog.WorkflowDefinition, defs: Snapshots, stepDigest: StepDigest)
    requires Configured(definition) && Resolves(definition, defs)
    requires run.steps == FreshSteps(definition, run.header.name, stepDigest)
    ensures SourcesRetain(run.steps, defs)
  {
    hide IsLabel, ValidAgent, Catalog.ValidSteps, SessionName, Ranks;
    NoBlankStep(definition.steps);
    forall n | n in run.steps && run.steps[n].plan.changeFrom in run.steps
      ensures Retains(defs, run.steps[run.steps[n].plan.changeFrom])
    {
      Catalog.HandoffSource(definition.steps, n);
    }
  }

  lemma CreatedPresentable(run: Run, request: RunRequest, definition: Catalog.WorkflowDefinition, defs: Snapshots,
                           digest: RunDigest, stepDigest: StepDigest)
    requires Configured(definition) && Resolves(definition, defs) && Hexadecimal(stepDigest)
    requires IsLabel(request.name, RUN_NAME_MAX) && !IsBlank(request.repository)
    requires IsRunFor(run, request, definition, digest, stepDigest)
    ensures Presentable(run, defs)
  {
    hide Hexadecimal, IsLabel, ValidAgent, IsBlank, Catalog.ValidSteps, SessionName, Ranks, Fresh;
    forall n | n in run.steps ensures IsLabel(run.steps[n].plan.session, SESSION_NAME_MAX) {
      SessionNameFits(request.name, n, stepDigest);
    }
  }
}
