/** Validation of configured workflow definitions. */
module Catalog {
  import opened Prelude
  import opened SessionTypes
  import opened Graphs
  import opened Names

  const MAX_WORKFLOW_STEPS := 16
  const MAX_PARALLELISM := 8

  datatype StepFile = StepFile(
    agent: string, prompt: string, after: seq<string>, changeFrom: string, publishable: bool)

  datatype DefinitionFile = DefinitionFile(description: string, maxParallelism: int, steps: map<string, StepFile>)

  datatype StepDefinition = StepDefinition(
    name: string, agent: string, prompt: string, after: seq<string>, changeFrom: string, publishable: bool,
    session: Definition)

  datatype WorkflowDefinition = WorkflowDefinition(
    name: string, description: string, maxParallelism: int, steps: map<string, StepDefinition>)

  /** The agent catalog: each configured agent's session definition. */
  type AgentCatalog = map<string, Definition>

  datatype CatalogError =
    | BadName | NoDescription | BadParallelism | BadStepCount
    | BadStepName(step: string) | NoPrompt(step: string) | UnknownAgent(step: string) | DuplicateDependency(step: string)
    | SecondPublishable
    | BadGraph(graph: GraphError)
    | HandoffNotDirect(step: string)
    | NeedsPersistent(step: string) | NeedsEphemeral(step: string)
    | PublishableNotLeaf

  /** An error about the file as a whole, found before any step is read. */
  predicate FileError(e: CatalogError) {
    e.BadName? || e.NoDescription? || e.BadParallelism? || e.BadStepCount?
  }

  function DefinitionGraph(steps: map<string, StepDefinition>): Graph {
    map n | n in steps :: steps[n].after
  }

  predicate ValidStep(name: string, raw: StepFile, agents: AgentCatalog) {
    && IsLabel(name, 63)
    && !IsBlank(raw.prompt)
    && raw.agent in agents
    && Distinct(raw.after)
  }

  function StepOf(name: string, raw: StepFile, agents: AgentCatalog): StepDefinition
    requires raw.agent in agents
  {
    StepDefinition(name, raw.agent, raw.prompt, raw.after, raw.changeFrom, raw.publishable, agents[raw.agent])
  }

  /** A step as its file describes it, with the session definition of its agent. */
  predicate ReadFrom(name: string, step: StepDefinition, raw: StepFile, agents: AgentCatalog)
    requires raw.agent in agents
  {
    && step.name == name && step.agent == raw.agent && step.prompt == raw.prompt && step.after == raw.after
    && step.changeFrom == raw.changeFrom && step.publishable == raw.publishable && step.session == agents[raw.agent]
  }

  ghost predicate StepsReadFrom(steps: map<string, StepDefinition>, raw: DefinitionFile, agents: AgentCatalog) {
    && steps.Keys == raw.steps.Keys
    && forall n | n in raw.steps :: raw.steps[n].agent in agents && ReadFrom(n, steps[n], raw.steps[n], agents)
  }

  lemma StepsAreRead(raw: DefinitionFile, agents: AgentCatalog)
    requires forall n | n in raw.steps :: ValidStep(n, raw.steps[n], agents)
    ensures StepsReadFrom(StepsOf(raw, agents), raw, agents)
  {}

  /** Some step applies the change this step retains. */
  predicate Producer(steps: map<string, StepDefinition>, name: string) {
    exists n :: n in steps && steps[n].changeFrom == name && name != ""
  }

  ghost predicate ValidSteps(steps: map<string, StepDefinition>) {
    && Closed(DefinitionGraph(steps)) && !HasCycle(DefinitionGraph(steps))
    && (forall n | n in steps :: steps[n].changeFrom == "" || steps[n].changeFrom in steps[n].after)
    && (forall n | n in steps ::
          steps[n].session.storage == if steps[n].publishable || Producer(steps, n) then Persistent else Ephemeral)
    && (forall n, m | n in steps && m in steps && steps[n].publishable && steps[m].publishable :: n == m)
    && (forall n, m | n in steps && m in steps && steps[n].publishable :: n !in steps[m].after)
  }

  function Parallelism(raw: DefinitionFile): int {
    if raw.maxParallelism == 0 then 1 else raw.maxParallelism
  }

  /** What a definition file must satisfy, independent of the order its steps are read in. */
  ghost predicate Acceptable(name: string, raw: DefinitionFile, agents: AgentCatalog) {
    && IsLabel(name, 63)
    && !IsBlank(raw.description)
    && 1 <= Parallelism(raw) <= MAX_PARALLELISM
    && 1 <= |raw.steps| <= MAX_WORKFLOW_STEPS
    && (forall n | n in raw.steps :: ValidStep(n, raw.steps[n], agents))
    && ValidSteps(StepsOf(raw, agents))
  }

  function StepsOf(raw: DefinitionFile, agents: AgentCatalog): map<string, StepDefinition> {
    map n | n in raw.steps && raw.steps[n].agent in agents :: StepOf(n, raw.steps[n], agents)
  }

  function DefinitionOf(name: string, raw: DefinitionFile, agents: AgentCatalog): WorkflowDefinition {
    WorkflowDefinition(name, raw.description, Parallelism(raw), StepsOf(raw, agents))
  }

  method LoadWorkflowStep(name: string, raw: StepFile, agents: AgentCatalog) returns (r: Result<StepDefinition, CatalogError>)
    ensures r.Success? <==> ValidStep(name, raw, agents)
    ensures r.Success? ==> r.value == StepOf(name, raw, agents)
    ensures r.Success? ==> IsLabel(name, 63) && !IsBlank(raw.prompt) && raw.agent in agents && ReadFrom(name, r.value, raw, agents)
    ensures r.Success? ==> forall i, j | 0 <= i < j < |raw.after| :: raw.after[i] != raw.after[j]
    ensures r == Failure(BadStepName(name)) ==> !IsLabel(name, 63)
    ensures r == Failure(NoPrompt(name)) ==> IsBlank(raw.prompt)
    ensures r == Failure(UnknownAgent(name)) ==> raw.agent !in agents
    ensures r == Failure(DuplicateDependency(name)) ==> exists i, j :: 0 <= i < j < |raw.after| && raw.after[i] == raw.after[j]
    ensures r.Failure? ==> r.error in {BadStepName(name), NoPrompt(name), UnknownAgent(name), DuplicateDependency(name)}
  {
    if !IsLabel(name, 63) { return Failure(BadStepName(name)); }
    if IsBlank(raw.prompt) { return Failure(NoPrompt(name)); }
    if raw.agent !in agents { return Failure(UnknownAgent(name)); }

    var dependencies: set<string> := {};
    for i := 0 to |raw.after|
      invariant forall d :: d in dependencies <==> d in raw.after[..i]
      invariant Distinct(raw.after[..i])
    {
      if raw.after[i] in dependencies {
        var j :| 0 <= j < i && raw.after[j] == raw.after[i];
        return Failure(DuplicateDependency(name));
      }
      dependencies := dependencies + {raw.after[i]};
      assert raw.after[..i + 1] == raw.after[..i] + [raw.after[i]];
    }
    assert raw.after[..|raw.after|] == raw.after;
    r := Success(StepOf(name, raw, agents));
  }

  /** Collects the steps whose change another step applies; a source must be a direct dependency. */
  method ValidateChangeHandoffs(steps: map<string, StepDefinition>) returns (r: Result<set<string>, CatalogError>)
    ensures r.Success? <==> forall n | n in steps :: steps[n].changeFrom == "" || steps[n].changeFrom in steps[n].after
    ensures r.Success? ==> forall n :: n in r.value <==> Producer(steps, n)
    ensures r.Failure? ==> r.error.HandoffNotDirect?
  {
    var producers: set<string> := {};
    var unread := steps.Keys;
    while unread != {}
      invariant unread <= steps.Keys
      invariant forall n | n in steps.Keys - unread :: steps[n].changeFrom == "" || steps[n].changeFrom in steps[n].after
      invariant forall p :: p in producers <==> exists n :: n in steps && n !in unread && steps[n].changeFrom == p && p != ""
    {
      var name :| name in unread;
      unread := unread - {name};
      var source := steps[name].changeFrom;
      if source == "" { continue; }
      if source !in steps[name].after { return Failure(HandoffNotDirect(name)); }
      producers := producers + {source};
    }
    r := Success(producers);
  }

  /** Publishable steps and producers need persistent storage; every other step needs ephemeral storage. */
  method CheckStorage(steps: map<string, StepDefinition>, producers: set<string>) returns (err: Option<CatalogError>)
    ensures err.None? <==> forall n | n in steps ::
              steps[n].session.storage == if steps[n].publishable || n in producers then Persistent else Ephemeral
    ensures err.Some? ==> !FileError(err.value)
  {
    var unread := steps.Keys;
    while unread != {}
      invariant unread <= steps.Keys
      invariant forall n | n in steps.Keys - unread ::
                  steps[n].session.storage == if steps[n].publishable || n in producers then Persistent else Ephemeral
    {
      var name :| name in unread;
      unread := unread - {name};
      var storage := steps[name].session.storage;
      if steps[name].publishable || name in producers {
        if storage != Persistent { return Some(NeedsPersistent(name)); }
        continue;
      }
      if storage != Ephemeral { return Some(NeedsEphemeral(name)); }
    }
    err := None;
  }

  /** No step may depend on the publishable one. */
  method CheckLeaf(steps: map<string, StepDefinition>, publishable: string) returns (err: Option<CatalogError>)
    ensures err.None? <==> forall n | n in steps :: publishable !in steps[n].after
    ensures err.Some? ==> err.value.PublishableNotLeaf?
  {
    var unread := steps.Keys;
    while unread != {}
      invariant unread <= steps.Keys
      invariant forall n | n in steps.Keys - unread :: publishable !in steps[n].after
    {
      var name :| name in unread;
      unread := unread - {name};
      if publishable in steps[name].after { return Some(PublishableNotLeaf); }
    }
    err := None;
  }

  /** Reads every step and finds the one publishable step, if any. */
  method LoadSteps(raw: DefinitionFile, agents: AgentCatalog)
    returns (err: Option<CatalogError>, steps: map<string, StepDefinition>, publishable: string)
    ensures err.None? <==>
            && (forall n | n in raw.steps :: ValidStep(n, raw.steps[n], agents))
            && (forall n, m | n in raw.steps && m in raw.steps && raw.steps[n].publishable && raw.steps[m].publishable :: n == m)
    ensures err.None? ==> steps == StepsOf(raw, agents)
    ensures err.Some? ==> !FileError(err.value)
    ensures err.None? ==> if publishable == "" then forall n | n in raw.steps :: !raw.steps[n].publishable
                          else publishable in raw.steps && raw.steps[publishable].publishable
  {
    hide ReadFrom, IsBlank;
    steps, publishable := map[], "";
    var unread := raw.steps.Keys;
    while unread != {}
      invariant unread <= raw.steps.Keys
      invariant forall n | n in raw.steps && n !in unread :: ValidStep(n, raw.steps[n], agents)
      invariant steps == map n | n in raw.steps && n !in unread && raw.steps[n].agent in agents :: StepOf(n, raw.steps[n], agents)
      invariant publishable != "" ==> publishable in raw.steps && publishable !in unread && raw.steps[publishable].publishable
      invariant forall n | n in raw.steps && n !in unread && raw.steps[n].publishable :: n == publishable
    {
      var name :| name in unread;
      var step := LoadWorkflowStep(name, raw.steps[name], agents);
      if step.Failure? { return Some(step.error), map[], ""; }
      if step.value.publishable {
        if publishable != "" { return Some(SecondPublishable), map[], ""; }
        publishable := name;
      }
      steps := steps[name := step.value];
      unread := unread - {name};
    }
    err := None;
  }

  /** The graph, handoff, storage, and leaf rules of a loaded workflow whose publishable step, if any, is named. */
  method ValidateSteps(steps: map<string, StepDefinition>, publishable: string) returns (err: Option<CatalogError>)
    requires forall n | n in steps && steps[n].publishable :: n == publishable
    requires publishable != "" ==> publishable in steps && steps[publishable].publishable
    requires "" !in steps
    ensures err.None? <==> ValidSteps(steps)
    ensures err.None? ==> exists rank :: Ranks(rank, DefinitionGraph(steps))
    ensures err.Some? ==> !FileError(err.value)
  {
    var graphError := ValidateGraph(DefinitionGraph(steps));
    if graphError.Some? { return Some(BadGraph(graphError.value)); }

    var handoffs := ValidateChangeHandoffs(steps);
    if handoffs.Failure? { return Some(handoffs.error); }

    err := CheckStorage(steps, handoffs.value);
    if err.Some? { return; }

    if publishable != "" {
      err := CheckLeaf(steps, publishable);
    }
  }

  /** Accepts exactly the acceptable files, whatever the map order, and returns their definition. */
  method LoadWorkflowDefinition(name: string, raw: DefinitionFile, agents: AgentCatalog)
    returns (r: Result<WorkflowDefinition, CatalogError>)
    ensures r.Success? <==> Acceptable(name, raw, agents)
    ensures r.Success? ==> r.value == DefinitionOf(name, raw, agents)
    ensures r.Success? ==>
              && r.value.name == name && r.value.description == raw.description
              && r.value.maxParallelism == (if raw.maxParallelism == 0 then 1 else raw.maxParallelism)
              && StepsReadFrom(r.value.steps, raw, agents)
              && IsLabel(name, 63) && !IsBlank(raw.description) && 1 <= r.value.maxParallelism <= 8 && 1 <= |raw.steps| <= 16
    ensures r == Failure(BadName) <==> !IsLabel(name, 63)
    ensures r == Failure(NoDescription) <==> IsLabel(name, 63) && IsBlank(raw.description)
    ensures r == Failure(BadParallelism) <==> IsLabel(name, 63) && !IsBlank(raw.description) && (raw.maxParallelism < 0 || raw.maxParallelism > 8)
    ensures r == Failure(BadStepCount) <==>
              IsLabel(name, 63) && !IsBlank(raw.description) && 0 <= raw.maxParallelism <= 8 && (|raw.steps| == 0 || |raw.steps| > 16)
    ensures r.Success? ==> exists rank :: Ranks(rank, DefinitionGraph(r.value.steps))
  {
    hide ValidSteps, Closed, HasCycle, IsBlank, StepsReadFrom;
    if !IsLabel(name, 63) { return Failure(BadName); }
    if IsBlank(raw.description) { return Failure(NoDescription); }
    var parallelism := raw.maxParallelism;
    if parallelism == 0 { parallelism := 1; }
    if parallelism < 1 || parallelism > MAX_PARALLELISM { return Failure(BadParallelism); }
    if |raw.steps| == 0 || |raw.steps| > MAX_WORKFLOW_STEPS { return Failure(BadStepCount); }

    var err, steps, publishable := LoadSteps(raw, agents);
    if err.Some? {
      PublishableKept(name, raw, agents);
      return Failure(err.value);
    }

    err := ValidateSteps(steps, publishable);
    if err.Some? { return Failure(err.value); }
    StepsAreRead(raw, agents);
    r := Success(WorkflowDefinition(name, raw.description, parallelism, steps));
  }

  lemma PublishableKept(name: string, raw: DefinitionFile, agents: AgentCatalog)
    ensures Acceptable(name, raw, agents) ==>
              forall n, m | n in raw.steps && m in raw.steps && raw.steps[n].publishable && raw.steps[m].publishable :: n == m
  {
    assert forall n | n in StepsOf(raw, agents) :: StepsOf(raw, agents)[n].publishable == raw.steps[n].publishable;
  }

  /**
   * In an accepted workflow every change comes from a direct dependency that keeps its files and is
   * never the publishable step, so it retains the change instead of reporting a pull request.
   */
  lemma HandoffSource(steps: map<string, StepDefinition>, consumer: string)
    requires ValidSteps(steps) && consumer in steps && steps[consumer].changeFrom != ""
    ensures var source := steps[consumer].changeFrom;
            && source in steps && source in steps[consumer].after && source != consumer
            && !steps[source].publishable && steps[source].session.storage == Persistent
  {
    var source := steps[consumer].changeFrom;
    DependencyExists(steps, consumer, source);
    assert Producer(steps, source);
  }

  lemma DependencyExists(steps: map<string, StepDefinition>, n: string, d: string)
    requires Closed(DefinitionGraph(steps)) && !HasCycle(DefinitionGraph(steps)) && n in steps && d in steps[n].after
    ensures d in steps && d != n
  {
    var g := DefinitionGraph(steps);
    assert n in g && g[n] == steps[n].after;
    assert !OnCycle(g, d);
    if d == n {
      assert IsCycle(g, [d, d]);
    }
  }
}
