/**
 * What the session of a workflow step is asked to do: from the workflow's file and the run's request to the session's row
 * and its task, field by field, and the prompt text by text.
 */
module StepSessions {
  import Catalog
  import opened Prelude
  import opened Names
  import opened Graphs
  import opened SessionTypes
  import opened SessionTasks
  import opened SessionStore
  import opened WorkflowRun
  import opened RunMoves
  import opened WorkflowStore
  import opened Accounting
  import opened RunCreation
  import opened DnsNames

  // ---- The prompt ----

  /** Texts one after the other with commas between them. */
  function Joined(texts: seq<string>): string {
    if texts == [] then ""
    else if |texts| == 1 then texts[0]
    else Joined(texts[..|texts| - 1]) + "," + texts[|texts| - 1]
  }

  /** A JSON object's members: one for each dependency, in name order, with its output or null. */
  ghost predicate AreOutputs(members: seq<string>, names: seq<string>, steps: Steps, after: seq<string>) {
    && Ascending(names) && (forall n :: n in names <==> n in after) && |members| == |names|
    && forall i | 0 <= i < |names| ::
         var output := if names[i] in steps then steps[names[i]].report.output else "";
         members[i] == "\"" + names[i] + "\":" + (if output == "" then "null" else output)
  }

  /** The run's goal, then the step's own task, then what its direct dependencies put out. */
  ghost predicate Prompts(prompt: string, goal: string, task: string, steps: Steps, after: seq<string>) {
    exists names, members ::
      && AreOutputs(members, names, steps, after)
      && prompt == "Workflow goal:\n" + goal + "\n\nStep task:\n" + task
                   + "\n\nDirect dependency outputs (JSON):\n" + ("{" + Joined(members) + "}")
  }

  function MemberTexts(names: seq<string>, outputs: map<string, RawJson>): (members: seq<string>)
    requires forall n | n in names :: n in outputs
    ensures |members| == |names|
    ensures forall i | 0 <= i < |names| :: members[i] == Member(names[i], outputs[names[i]])
  {
    if names == [] then [] else [Member(names[0], outputs[names[0]])] + MemberTexts(names[1..], outputs)
  }

  lemma {:induction false} JoinedFront(first: string, rest: seq<string>)
    requires rest != []
    ensures Joined([first] + rest) == first + "," + Joined(rest)
  {
    var all := [first] + rest;
    if |rest| == 1 {
      assert all[..1] == [first];
    } else {
      var front := rest[..|rest| - 1];
      assert all[..|all| - 1] == [first] + front;
      JoinedFront(first, front);
      assert first + "," + Joined(front) + "," + rest[|rest| - 1] == first + "," + (Joined(front) + "," + rest[|rest| - 1]);
    }
  }

  lemma {:induction false} MembersAreJoined(names: seq<string>, outputs: map<string, RawJson>)
    requires forall n | n in names :: n in outputs
    ensures Members(names, outputs) == Joined(MemberTexts(names, outputs))
  {
    if names != [] {
      MembersAreJoined(names[1..], outputs);
      var first, rest := Member(names[0], outputs[names[0]]), MemberTexts(names[1..], outputs);
      if |names| == 1 {
        assert Members(names[1..], outputs) == "";
        assert MemberTexts(names, outputs) == [first];
      } else {
        JoinedFront(first, rest);
      }
    }
  }

  lemma OutputsExactly(steps: Steps, s: Step)
    ensures var outputs := DependencyOutputs(steps, s); var names := Sorted(outputs.Keys);
            AreOutputs(MemberTexts(names, outputs), names, steps, s.plan.after)
  {
    hide MemberTexts, Sorted, Ascending;
  }

  /** The prompt of a step is exactly that text. */
  lemma PromptExactly(header: Header, steps: Steps, s: Step)
    ensures Prompts(StepPrompt(header, steps, s), header.prompt, s.plan.prompt, steps, s.plan.after)
  {
    hide Members, Sorted, Joined;
    var outputs := DependencyOutputs(steps, s);
    var names := Sorted(outputs.Keys);
    var members := MemberTexts(names, outputs);
    MembersAreJoined(names, outputs);
    assert EncodeOutputs(outputs) == "{" + Joined(members) + "}";
    OutputsExactly(steps, s);
  }

  // ---- The session ----

  /** The kind of result that a step's session owes. */
  predicate Owes(run: Run, n: string, kind: ResultKind)
    requires n in run.steps
  {
    if run.steps[n].plan.publishable then kind.PullRequest?
    else if exists m :: m in run.steps && run.steps[m].plan.changeFrom == n then kind.WorkflowChange?
    else kind.WorkflowOutput?
  }

  /** The change that a step's session applies is the one that the step's source recorded. */
  predicate Applies(run: Run, n: string, input: Option<ChangeInput>)
    requires n in run.steps
  {
    var from := run.steps[n].plan.changeFrom;
    if from == "" then input.None?
    else
      && from in run.steps && run.steps[from].report.change.Some?
      && input == Some(ChangeInput(run.steps[from].plan.session, run.steps[from].report.change.value))
  }

  /** A request to do this step of this run. */
  ghost predicate AsksForStep(run: Run, n: string, r: StartRequest)
    requires n in run.steps
  {
    var plan := run.steps[n].plan;
    && r.name == plan.session && r.repository == run.header.repository && r.initialRef == run.header.ref && r.timeout == 0
    && r.workflowRun == run.header.name && r.workflowStep == plan.name
    && Prompts(r.prompt, run.header.prompt, plan.prompt, run.steps, plan.after)
    && (plan.name == n ==> Owes(run, n, r.resultKind)) && Applies(run, n, r.changeInput)
  }

  /** A session's row and first task that do this step of this run, with this agent. */
  ghost predicate DoesStep(run: Run, n: string, d: Definition, server: Server, record: Record, first: Task)
    requires n in run.steps
  {
    var plan := run.steps[n].plan;
    && record.name == plan.session && record.repository == run.header.repository && record.initialRef == run.header.ref
    && record.definition == d && record.image == server.image && record.scope == server.scope
    && record.workflowRun == run.header.name && record.workflowStep == n
    && first.id == plan.session && first.timeout == d.timeout
    && Prompts(first.prompt, run.header.prompt, plan.prompt, run.steps, plan.after)
    && Owes(run, n, first.resultKind) && Applies(run, n, first.changeInput)
  }

  /** Every recorded session of an accounted run does the step whose session it is, with the agent that the step names. */
  lemma SessionDoesStep(run: Run, rank: Rank, defs: Snapshots, server: Server, sessions: Sessions, tasks: Tasks, n: string)
    requires Accounted(run, defs, server, sessions, tasks) && Planned(run.header, run.steps, rank)
    requires n in run.steps && run.steps[n].plan.session in sessions
    ensures var plan := run.steps[n].plan;
            && plan.agent in defs && plan.session in tasks && |tasks[plan.session]| == 1
            && DoesStep(run, n, defs[plan.agent], server, sessions[plan.session], tasks[plan.session][0])
  {
    hide Owned, SourcesRetain, ChangesValid, DistinctSessions, StepPrompt, Prompts, Ranks, IsLabel, IsBlank;
    assert StepAccounted(run, defs, server, sessions, tasks, n);
    PromptExactly(run.header, run.steps, run.steps[n]);
  }

  // ---- From the file ----

  /** A step's session as the workflow's file and the run's request describe it. */
  ghost predicate DoesFileStep(n: string, raw: Catalog.StepFile, agents: Catalog.AgentCatalog, request: RunRequest, stepDigest: StepDigest,
                               steps: Steps, record: Record, first: Task)
    requires raw.agent in agents
  {
    && record.name == request.name + "-" + stepDigest(n) && record.repository == request.repository
    && record.initialRef == (if request.ref == "" then "main" else request.ref)
    && record.definition == agents[raw.agent] && record.workflowRun == request.name && record.workflowStep == n
    && first.timeout == agents[raw.agent].timeout
    && Prompts(first.prompt, request.prompt, raw.prompt, steps, raw.after)
    && (raw.publishable ==> first.resultKind.PullRequest?)
    && (raw.changeFrom == "" ==> first.changeInput.None?)
    && (raw.changeFrom != "" ==> first.changeInput.Some? && first.changeInput.value.session == request.name + "-" + stepDigest(raw.changeFrom))
  }

  /** However far a run has come, its steps' sessions do what the loaded file and the run's request say. */
  lemma FileReachesSession(raw: Catalog.DefinitionFile, agents: Catalog.AgentCatalog, definition: Catalog.WorkflowDefinition,
                           request: RunRequest, created: Run, stepDigest: StepDigest, run: Run, rank: Rank, defs: Snapshots,
                           server: Server, sessions: Sessions, tasks: Tasks, n: string)
    requires Catalog.StepsReadFrom(definition.steps, raw, agents)
    requires CreatedAs(created, request, definition, stepDigest) && Resolves(definition, defs)
    requires run.header == created.header && SameShape(created.steps, run.steps)
    requires Accounted(run, defs, server, sessions, tasks) && Planned(run.header, run.steps, rank)
    requires n in raw.steps && n in run.steps && run.steps[n].plan.session in sessions
    ensures var session := run.steps[n].plan.session;
            && session in tasks && |tasks[session]| == 1 && raw.steps[n].agent in agents
            && DoesFileStep(n, raw.steps[n], agents, request, stepDigest, run.steps, sessions[session], tasks[session][0])
  {
    hide Accounted, Planned, Prompts;
    SessionDoesStep(run, rank, defs, server, sessions, tasks, n);
    assert Catalog.ReadFrom(n, definition.steps[n], raw.steps[n], agents);
    assert StepCreatedAs(n, created.steps[n], definition.steps[n], request.name, stepDigest);
    var from := raw.steps[n].changeFrom;
    if from != "" {
      assert StepCreatedAs(from, created.steps[from], definition.steps[from], request.name, stepDigest);
    }
  }
}
