/** Every way an uncanceled run can end gives the same result. */
module Confluence {
  import opened Prelude
  import opened SessionTypes
  import opened Names
  import opened Graphs
  import opened WorkflowRun
  import opened Scheduling
  import opened RunMoves
  import opened RunHistory
  import opened OptimisticRows

  /** What the agents make of each request: the artifacts of a finished session, or none when it failed. */
  type Agents = StartRequest -> Option<Artifacts>

  function ReplyOf(work: Option<Artifacts>): SessionReply {
    if work.None? then Stopped else Reported(work.value)
  }

  /** Sessions that are observed finished report what the agents make of the step's request. */
  ghost predicate Faithful(run: Run, m: Move, agents: Agents) {
    m.Reconcile? ==>
      var steps := StartAll(run.steps);
      forall n | n in m.observed && n in steps && HandoffReady(steps, steps[n]) ::
        m.observed[n].reply.Unfinished? || m.observed[n].reply == ReplyOf(agents(Request(run.header, steps, steps[n])))
  }

  ghost predicate FaithfulMoves(agents: Agents, a: Run, b: Run) {
    exists m :: Enabled(a, m) && Faithful(a, m, agents) && b == Apply(a, m)
  }

  // ---- The result each step must end with ----

  datatype Verdict = Verdict(state: StepState, report: Report)

  function VerdictOf(s: Step): Verdict {
    Verdict(s.state, s.report)
  }

  /** The steps as a step's session sees them: its direct dependencies with their results. */
  function View(steps: Steps, known: map<string, Verdict>): Steps {
    map n | n in steps ::
      if n in known then steps[n].(state := known[n].state, report := known[n].report) else steps[n]
  }

  /** A session's verdict on a running step. */
  function SessionVerdict(s: Step, work: Option<Artifacts>, produces: bool): Verdict {
    VerdictOf(ObserveStep(s.(state := Running), Observation(ReplyOf(work), 0), produces))
  }

  /** The verdict of a step whose direct dependencies end with the known verdicts. */
  function FinalFrom(header: Header, initial: Steps, agents: Agents, known: map<string, Verdict>, n: string): Verdict
    requires n in initial
  {
    var view := View(initial, known);
    if (forall d | d in known :: known[d].state.Completed?) && HandoffReady(view, initial[n]) then
      SessionVerdict(initial[n], agents(Request(header, view, initial[n])), ProducesChange(initial, n))
    else Verdict(Skipped, initial[n].report)
  }

  /** Skipped unless every direct dependency ends completed; else what the step's agent makes of its request. */
  function Final(header: Header, initial: Steps, rank: Rank, agents: Agents, n: string): Verdict
    requires Ranks(rank, GraphOf(initial)) && n in initial
    decreases rank[n]
  {
    assert GraphOf(initial)[n] == initial[n].plan.after;
    var known := map d | d in initial[n].plan.after :: Final(header, initial, rank, agents, d);
    FinalFrom(header, initial, agents, known, n)
  }

  /** The final verdicts of a step's direct dependencies. */
  lemma FinalUnfolds(header: Header, initial: Steps, rank: Rank, agents: Agents, n: string) returns (known: map<string, Verdict>)
    requires Ranks(rank, GraphOf(initial)) && n in initial
    ensures forall d :: d in known <==> d in initial[n].plan.after
    ensures known.Keys <= initial.Keys
    ensures forall d | d in known :: known[d] == Final(header, initial, rank, agents, d) && rank[d] < rank[n]
    ensures Final(header, initial, rank, agents, n) == FinalFrom(header, initial, agents, known, n)
  {
    assert GraphOf(initial)[n] == initial[n].plan.after;
    known := map d | d in initial[n].plan.after :: Final(header, initial, rank, agents, d);
  }

  // ---- A move keeps the agreement ----

  /** A step whose dependencies have ended with the known verdicts is handed the same request in both. */
  lemma SameRequest(header: Header, initial: Steps, steps: Steps, known: map<string, Verdict>, n: string)
    requires SameShape(initial, steps) && n in initial
    requires known.Keys <= initial.Keys && forall d :: d in known <==> d in initial[n].plan.after
    requires forall d | d in known :: known[d] == VerdictOf(steps[d])
    requires initial[n].plan.changeFrom == "" || initial[n].plan.changeFrom in initial[n].plan.after
    ensures var view := View(initial, known);
            && (HandoffReady(view, initial[n]) <==> HandoffReady(steps, steps[n]))
            && (HandoffReady(steps, steps[n]) ==> Request(header, view, initial[n]) == Request(header, steps, steps[n]))
  {
    var view := View(initial, known);
    ShapeKeepsGraph(initial, steps);
    ShapeKeepsGraph(initial, view);
    assert forall d | d in known :: view[d].report == steps[d].report && view[d].plan == steps[d].plan;
    assert DependencyOutputs(view, initial[n]) == DependencyOutputs(steps, steps[n]);
  }

  /** The verdict depends only on the step's plan, its earlier report, and the reply. */
  lemma SameVerdict(s: Step, t: Step, work: Option<Artifacts>, at: int, produces: bool)
    requires s.plan == t.plan && s.report == t.report && t.state.Running?
    ensures VerdictOf(ObserveStep(t, Observation(ReplyOf(work), at), produces)) == SessionVerdict(s, work, produces)
  {}

  /** All that is fixed about a run: its header, its steps as created, a rank, and its agents. */
  ghost predicate Setting(header: Header, initial: Steps, rank: Rank) {
    Planned(header, initial, rank) && forall n | n in initial :: initial[n].state.Pending?
  }

  /** When every dependency has ended completed, the final verdict is the session's verdict on the actual request. */
  lemma FinalOfStarted(header: Header, initial: Steps, rank: Rank, agents: Agents, steps: Steps, n: string)
    requires Setting(header, initial, rank) && SameShape(initial, steps) && n in initial
    requires AllCompleted(steps, steps[n]) && HandoffReady(steps, steps[n])
    requires forall d | d in initial[n].plan.after && d in initial ::
               VerdictOf(steps[d]) == Final(header, initial, rank, agents, d)
    ensures Final(header, initial, rank, agents, n)
         == SessionVerdict(initial[n], agents(Request(header, steps, steps[n])), ProducesChange(initial, n))
  {
    var known := FinalUnfolds(header, initial, rank, agents, n);
    SameRequest(header, initial, steps, known, n);
  }

  lemma FinalOfSkipped(header: Header, initial: Steps, rank: Rank, agents: Agents, steps: Steps, n: string)
    requires Setting(header, initial, rank) && SameShape(initial, steps) && n in initial
    requires HasFatal(steps, steps[n])
    requires forall d | d in initial[n].plan.after && d in initial && steps[d].state.Terminal() ::
               VerdictOf(steps[d]) == Final(header, initial, rank, agents, d)
    ensures Final(header, initial, rank, agents, n) == Verdict(Skipped, initial[n].report)
  {
    var known := FinalUnfolds(header, initial, rank, agents, n);
    var d :| d in steps[n].plan.after && d in steps && steps[d].state.Fatal();
    assert known[d] == VerdictOf(steps[d]);
  }

  ghost predicate AgreeingSteps(header: Header, initial: Steps, rank: Rank, agents: Agents, steps: Steps)
    requires Ranks(rank, GraphOf(initial))
  {
    && SameShape(initial, steps)
    && forall n | n in initial ::
         if steps[n].state.Terminal() then VerdictOf(steps[n]) == Final(header, initial, rank, agents, n)
         else steps[n].report == initial[n].report
  }

  lemma StartAgrees(header: Header, initial: Steps, rank: Rank, agents: Agents, steps: Steps)
    requires Setting(header, initial, rank) && AgreeingSteps(header, initial, rank, agents, steps)
    ensures AgreeingSteps(header, initial, rank, agents, StartAll(steps))
  {
    hide Final, Planned;
    var started := StartAll(steps);
    forall n | n in initial
      ensures started[n].plan == initial[n].plan && started[n].report == steps[n].report
      ensures started[n].state.Terminal() || steps[n].state.Terminal() ==> started[n] == steps[n]
    {
      assert steps[n].plan == initial[n].plan;
    }
  }

  lemma ObservedAgrees(header: Header, initial: Steps, rank: Rank, agents: Agents, steps: Steps, o: Observation, n: string)
    requires Setting(header, initial, rank) && AgreeingSteps(header, initial, rank, agents, steps) && n in initial
    requires Sequenced(steps) && steps[n].state.Running? && HandoffReady(steps, steps[n])
    requires o.reply == ReplyOf(agents(Request(header, steps, steps[n])))
    ensures VerdictOf(ObserveStep(steps[n], o, ProducesChange(steps, n))) == Final(header, initial, rank, agents, n)
  {
    ShapeKeepsGraph(initial, steps);
    assert AllCompleted(steps, steps[n]);
    FinalOfStarted(header, initial, rank, agents, steps, n);
    SameVerdict(initial[n], steps[n], agents(Request(header, steps, steps[n])), o.at, ProducesChange(initial, n));
  }

  lemma ObserveAgrees(header: Header, initial: Steps, rank: Rank, agents: Agents, steps: Steps, observed: map<string, Observation>)
    requires Setting(header, initial, rank) && AgreeingSteps(header, initial, rank, agents, steps)
    requires Sequenced(steps) && Recorded(steps)
    requires forall n | n in observed && n in steps && HandoffReady(steps, steps[n]) ::
               observed[n].reply.Unfinished? || observed[n].reply == ReplyOf(agents(Request(header, steps, steps[n])))
    ensures AgreeingSteps(header, initial, rank, agents, ObserveAll(steps, observed))
  {
    var s := ObserveAll(steps, observed);
    forall n | n in initial
      ensures s[n].plan == initial[n].plan
      ensures if s[n].state.Terminal() then VerdictOf(s[n]) == Final(header, initial, rank, agents, n)
              else s[n].report == initial[n].report
    {
      if steps[n].state.Running? && n in observed && !observed[n].reply.Unfinished? {
        PlanKept(header, initial, steps, rank);
        StartedHasHandoff(header, steps, rank, n);
        ObservedAgrees(header, initial, rank, agents, steps, observed[n], n);
        ObserveOne(steps[n], observed[n], ProducesChange(steps, n));
        FinishedIsTerminal(steps[n], observed[n], ProducesChange(steps, n));
      }
    }
  }

  lemma FinishedIsTerminal(s: Step, o: Observation, produces: bool)
    requires !o.reply.Unfinished?
    ensures ObserveStep(s, o, produces).state.Terminal()
  {
    if o.reply.Reported? { ReportedVerdict(s, o.reply.artifacts, o.at, produces); }
  }

  lemma StartedHasHandoff(header: Header, steps: Steps, rank: Rank, n: string)
    requires Planned(header, steps, rank) && Sequenced(steps) && Recorded(steps)
    requires n in steps && steps[n].state.Begun()
    ensures HandoffReady(steps, steps[n])
  {
    var source := steps[n].plan.changeFrom;
    if source != "" {
      assert AllCompleted(steps, steps[n]);
      assert ProducesChange(steps, source);
    }
  }

  lemma ScheduleAgrees(header: Header, initial: Steps, rank: Rank, agents: Agents, steps: Steps, max: int, at: int)
    requires Setting(header, initial, rank) && AgreeingSteps(header, initial, rank, agents, steps)
    requires Sequenced(steps) && ActiveCount(steps) <= max
    ensures AgreeingSteps(header, initial, rank, agents, Schedule(steps, max, at))
  {
    hide Schedule, Setting, SkippedBy, Started, Final;
    var s := Schedule(steps, max, at);
    var names := Sorted(steps.Keys);
    ScheduleIsGreedy(steps, max, at);
    forall n | n in initial
      ensures s[n].plan == initial[n].plan
      ensures s[n].report == steps[n].report
      ensures s[n] == steps[n] || (steps[n].state.Pending? && (s[n].state.Starting? || s[n].state.Skipped?))
      ensures s[n].state.Skipped? ==> HasFatal(s, s[n])
    {
      ScheduledOne(steps, names, max, at, s, n);
      assert s[n] == PassResult(steps, names, max, at, n);
      if s[n].state.Skipped? { SkippedHasFatal(steps, names, max, at, s, n); }
    }
    SkippedAgree(header, initial, rank, agents, steps, s);
  }

  /** Skips follow the rank: by induction a skipped step's fatal dependency already has its final verdict. */
  lemma SkippedAgree(header: Header, initial: Steps, rank: Rank, agents: Agents, steps: Steps, s: Steps)
    requires Setting(header, initial, rank) && AgreeingSteps(header, initial, rank, agents, steps) && SameShape(initial, s)
    requires forall n | n in initial :: s[n].report == steps[n].report
    requires forall n | n in initial ::
               s[n] == steps[n] || (steps[n].state.Pending? && (s[n].state.Starting? || s[n].state.Skipped?))
    requires forall n | n in initial && s[n].state.Skipped? :: HasFatal(s, s[n])
    ensures AgreeingSteps(header, initial, rank, agents, s)
  {
    forall n | n in initial && s[n].state.Terminal()
      ensures VerdictOf(s[n]) == Final(header, initial, rank, agents, n)
    {
      TerminalAgrees(header, initial, rank, agents, steps, s, n);
    }
  }

  lemma {:induction false} TerminalAgrees(header: Header, initial: Steps, rank: Rank, agents: Agents, steps: Steps, s: Steps, n: string)
    requires Setting(header, initial, rank) && AgreeingSteps(header, initial, rank, agents, steps) && SameShape(initial, s)
    requires forall n | n in initial :: s[n].report == steps[n].report
    requires forall n | n in initial ::
               s[n] == steps[n] || (steps[n].state.Pending? && (s[n].state.Starting? || s[n].state.Skipped?))
    requires forall n | n in initial && s[n].state.Skipped? :: HasFatal(s, s[n])
    requires n in initial && s[n].state.Terminal()
    ensures VerdictOf(s[n]) == Final(header, initial, rank, agents, n)
    decreases rank[n]
  {
    if s[n] != steps[n] {
      var known := FinalUnfolds(header, initial, rank, agents, n);
      forall d | d in initial[n].plan.after && d in initial && s[d].state.Terminal()
        ensures VerdictOf(s[d]) == Final(header, initial, rank, agents, d)
      {
        TerminalAgrees(header, initial, rank, agents, steps, s, d);
      }
      FinalOfSkipped(header, initial, rank, agents, s, n);
    }
  }

  lemma CleanAgrees(header: Header, initial: Steps, rank: Rank, agents: Agents, steps: Steps, s: Steps)
    requires Setting(header, initial, rank) && AgreeingSteps(header, initial, rank, agents, steps)
    requires s.Keys == steps.Keys && forall n | n in steps :: s[n] == CleanStep(steps[n])
    ensures AgreeingSteps(header, initial, rank, agents, s)
  {}

  /** A faithful move of an uncanceled run keeps every ended step at its final verdict. */
  lemma {:induction false} MoveAgrees(run: Run, m: Move, initial: Steps, rank: Rank, agents: Agents)
    requires Setting(run.header, initial, rank) && AgreeingSteps(run.header, initial, rank, agents, run.steps)
    requires Sound(run) && Enabled(run, m) && Faithful(run, m, agents)
    requires !Apply(run, m).cancelRequested
    ensures AgreeingSteps(run.header, initial, rank, agents, Apply(run, m).steps)
  {
    match m {
      case Reconcile(observed, at, saved) =>
        var s1 := StartAll(run.steps);
        StartAgrees(run.header, initial, rank, agents, run.steps);
        StartKeeps(run.steps);
        LegalKeeps(run.steps, s1);
        var s2 := ObserveAll(s1, observed);
        ObserveAgrees(run.header, initial, rank, agents, s1, observed);
        ObserveKeeps(s1, observed);
        LegalKeeps(s1, s2);
        ScheduleAgrees(run.header, initial, rank, agents, s2, run.header.maxParallelism, at);
      case Clean(at) =>
        CleanAgrees(run.header, initial, rank, agents, run.steps, Apply(run, m).steps);
      case BeginDelete(at) =>
    }
  }

  // ---- What the final verdicts are ----

  /** A step whose change is applied by another only ever ends completed with its change. */
  lemma VerdictKeepsChange(header: Header, initial: Steps, agents: Agents, known: map<string, Verdict>, n: string)
    requires n in initial && initial[n].state.Pending? && ProducesChange(initial, n)
    requires FinalFrom(header, initial, agents, known, n).state.Completed?
    ensures FinalFrom(header, initial, agents, known, n).report.change.Some?
  {
    var work := agents(Request(header, View(initial, known), initial[n]));
    if work.Some? {
      ReportedVerdict(initial[n].(state := Running), work.value, 0, true);
      ReportedResult(initial[n].(state := Running), work.value, 0, true);
    }
  }

  lemma SessionVerdictEnds(s: Step, work: Option<Artifacts>, produces: bool)
    ensures var v := SessionVerdict(s, work, produces); v.state.Completed? || v.state.Blocked? || v.state.Failed?
  {
    if work.Some? { ReportedVerdict(s.(state := Running), work.value, 0, produces); }
  }

  lemma VerdictSkips(header: Header, initial: Steps, agents: Agents, known: map<string, Verdict>, n: string)
    requires n in initial && known.Keys <= initial.Keys
    requires initial[n].plan.changeFrom == "" || initial[n].plan.changeFrom in known
    requires forall d | d in known && d == initial[n].plan.changeFrom && known[d].state.Completed? :: known[d].report.change.Some?
    ensures FinalFrom(header, initial, agents, known, n).state.Skipped? <==> exists d :: d in known && !known[d].state.Completed?
    ensures FinalFrom(header, initial, agents, known, n).state.Terminal()
  {
    var view := View(initial, known);
    if forall d | d in known :: known[d].state.Completed? {
      assert HandoffReady(view, initial[n]);
      SessionVerdictEnds(initial[n], agents(Request(header, view, initial[n])), ProducesChange(initial, n));
    }
  }

  /** A step ends skipped exactly when some direct dependency does not end completed. */
  lemma {:induction false} FinalSkips(header: Header, initial: Steps, rank: Rank, agents: Agents, n: string)
    requires Setting(header, initial, rank) && n in initial
    ensures Final(header, initial, rank, agents, n).state.Skipped? <==>
            exists d :: d in initial[n].plan.after && d in initial && !Final(header, initial, rank, agents, d).state.Completed?
    ensures Final(header, initial, rank, agents, n).state.Terminal()
  {
    var known := FinalUnfolds(header, initial, rank, agents, n);
    var source := initial[n].plan.changeFrom;
    if source != "" && known[source].state.Completed? {
      assert ProducesChange(initial, source);
      var sources := FinalUnfolds(header, initial, rank, agents, source);
      VerdictKeepsChange(header, initial, agents, sources, source);
    }
    VerdictSkips(header, initial, agents, known, n);
  }

  // ---- Whole histories ----

  ghost function Faithfully(agents: Agents): (Run, Run) -> bool {
    (a, b) => FaithfulMoves(agents, a, b)
  }

  /** A history of one run from its creation, in which every finished session reports what its agent makes of its request. */
  ghost predicate History(trace: seq<Table<Run>>, rank: Rank, agents: Agents) {
    && Execution(Faithfully(agents), trace)
    && var run := trace[0].row.value; Fresh(run) && Planned(run.header, run.steps, rank)
  }

  lemma HistoryIsExecution(trace: seq<Table<Run>>, rank: Rank, agents: Agents)
    requires History(trace, rank, agents)
    ensures Execution(Moves, trace)
  {
    forall a, b | Faithfully(agents)(a, b) ensures Moves(a, b) {
      var m :| Enabled(a, m) && Faithful(a, m, agents) && b == Apply(a, m);
    }
    WiderChange(Faithfully(agents), Moves, trace);
  }

  /** In every history of an uncanceled run, each step that has ended has its final verdict. */
  lemma {:induction false} EndedStepsAreFinal(trace: seq<Table<Run>>, rank: Rank, agents: Agents, i: nat)
    requires History(trace, rank, agents) && i < |trace| && !trace[i].row.value.cancelRequested
    ensures var first, run := trace[0].row.value, trace[i].row.value;
            run.header == first.header && Sound(run) && AgreeingSteps(first.header, first.steps, rank, agents, run.steps)
  {
    HistoryIsExecution(trace, rank, agents);
    EveryRunIsSound(trace, rank, i);
    if i > 0 {
      var first, before, run := trace[0].row.value, trace[i - 1].row.value, trace[i].row.value;
      EveryRunIsSound(trace, rank, i - 1);
      VersionsLinearize(Faithfully(agents), trace, i - 1);
      if trace[i].row == trace[i - 1].row {
        EndedStepsAreFinal(trace, rank, agents, i - 1);
      } else {
        assert FaithfulMoves(agents, before, run);
        var m :| Enabled(before, m) && Faithful(before, m, agents) && run == Apply(before, m);
        EndedStepsAreFinal(trace, rank, agents, i - 1);
        MoveAgrees(before, m, first.steps, rank, agents);
      }
    }
  }

  /** The headers ask for the same work; the parallelism may differ. */
  predicate SameGoal(a: Header, b: Header) {
    a.name == b.name && a.repository == b.repository && a.ref == b.ref && a.prompt == b.prompt
  }

  /** The final verdict depends on neither the parallelism nor the choice of rank. */
  lemma {:induction false} FinalIsUnique(a: Header, ra: Rank, b: Header, rb: Rank, initial: Steps, agents: Agents, n: string)
    requires Ranks(ra, GraphOf(initial)) && Ranks(rb, GraphOf(initial)) && SameGoal(a, b) && n in initial
    ensures Final(a, initial, ra, agents, n) == Final(b, initial, rb, agents, n)
    decreases ra[n]
  {
    hide Final, FinalFrom, SameGoal;
    var ka := FinalUnfolds(a, initial, ra, agents, n);
    var kb := FinalUnfolds(b, initial, rb, agents, n);
    forall d | d in ka ensures d in kb && ka[d] == kb[d] {
      FinalIsUnique(a, ra, b, rb, initial, agents, d);
    }
    SameMap(ka, kb);
    SameFinalFrom(a, b, initial, agents, ka, n);
  }

  lemma SameMap(a: map<string, Verdict>, b: map<string, Verdict>)
    requires forall d | d in a :: d in b && a[d] == b[d]
    requires forall d | d in b :: d in a
    ensures a == b
  {}

  lemma SameFinalFrom(a: Header, b: Header, initial: Steps, agents: Agents, known: map<string, Verdict>, n: string)
    requires SameGoal(a, b) && n in initial
    ensures FinalFrom(a, initial, agents, known, n) == FinalFrom(b, initial, agents, known, n)
  {
    SameRequestForGoal(a, b, View(initial, known), initial[n]);
  }

  lemma SameRequestForGoal(a: Header, b: Header, steps: Steps, s: Step)
    requires SameGoal(a, b)
    ensures HandoffReady(steps, s) ==> Request(a, steps, s) == Request(b, steps, s)
  {}

  lemma EndedVerdict(trace: seq<Table<Run>>, rank: Rank, agents: Agents, i: nat, n: string)
    requires History(trace, rank, agents) && i < |trace| && n in trace[0].row.value.steps
    requires !trace[i].row.value.cancelRequested && trace[i].row.value.state.Terminal()
    ensures var first, run := trace[0].row.value, trace[i].row.value;
            && n in run.steps && run.steps.Keys == first.steps.Keys
            && VerdictOf(run.steps[n]) == Final(first.header, first.steps, rank, agents, n)
            && run.state == RunStateOf(run.steps)
  {
    EndedStepsAreFinal(trace, rank, agents, i);
  }

  /**
   * Two histories of the same workflow, goal, and agents, whatever their parallelism, observation times, interleavings,
   * and crashes, end every step in the same state with the same report, and end in the same run state.
   */
  lemma Confluent(s: seq<Table<Run>>, rs: Rank, i: nat, t: seq<Table<Run>>, rt: Rank, j: nat, agents: Agents)
    requires History(s, rs, agents) && i < |s| && s[i].row.value.state.Terminal() && !s[i].row.value.cancelRequested
    requires History(t, rt, agents) && j < |t| && t[j].row.value.state.Terminal() && !t[j].row.value.cancelRequested
    requires s[0].row.value.steps == t[0].row.value.steps && SameGoal(s[0].row.value.header, t[0].row.value.header)
    ensures var a, b := s[i].row.value, t[j].row.value;
            && a.steps.Keys == b.steps.Keys
            && (forall n | n in a.steps :: VerdictOf(a.steps[n]) == VerdictOf(b.steps[n]))
            && a.state == b.state
  {
    var a, b := s[i].row.value, t[j].row.value;
    var first := s[0].row.value.steps;
    EndedKeys(s, rs, agents, i);
    EndedKeys(t, rt, agents, j);
    forall n | n in first ensures VerdictOf(a.steps[n]) == VerdictOf(b.steps[n]) {
      EndedVerdict(s, rs, agents, i, n);
      EndedVerdict(t, rt, agents, j, n);
      FinalIsUnique(s[0].row.value.header, rs, t[0].row.value.header, rt, first, agents, n);
    }
    SameStates(a.steps, b.steps);
  }

  /** The values of a run's row from its creation on, each made from the one before by a faithful move. */
  ghost predicate StoredHistory(values: seq<Run>, rank: Rank, agents: Agents) {
    && |values| > 0 && Fresh(values[0]) && Planned(values[0].header, values[0].steps, rank)
    && forall i | 0 <= i < |values| - 1 :: FaithfulMoves(agents, values[i], values[i + 1])
  }

  /** Two stored runs of the same workflow, goal, and agents end alike, whoever saved what in between. */
  lemma StoredRunsConfluent(s: seq<Run>, rs: Rank, t: seq<Run>, rt: Rank, agents: Agents)
    requires StoredHistory(s, rs, agents) && s[|s| - 1].state.Terminal() && !s[|s| - 1].cancelRequested
    requires StoredHistory(t, rt, agents) && t[|t| - 1].state.Terminal() && !t[|t| - 1].cancelRequested
    requires s[0].steps == t[0].steps && SameGoal(s[0].header, t[0].header)
    ensures var a, b := s[|s| - 1], t[|t| - 1];
            && a.steps.Keys == b.steps.Keys
            && (forall n | n in a.steps :: VerdictOf(a.steps[n]) == VerdictOf(b.steps[n]))
            && a.state == b.state
  {
    hide Fresh, Planned, FaithfulMoves;
    var u := ChangesAreExecution(Faithfully(agents), s);
    var v := ChangesAreExecution(Faithfully(agents), t);
    Confluent(u, rs, |u| - 1, v, rt, |v| - 1, agents);
  }

  lemma EndedKeys(trace: seq<Table<Run>>, rank: Rank, agents: Agents, i: nat)
    requires History(trace, rank, agents) && i < |trace|
    requires !trace[i].row.value.cancelRequested && trace[i].row.value.state.Terminal()
    ensures trace[i].row.value.steps.Keys == trace[0].row.value.steps.Keys
    ensures trace[i].row.value.state == RunStateOf(trace[i].row.value.steps)
  {
    EndedStepsAreFinal(trace, rank, agents, i);
  }

  // ---- The run state ----

  lemma {:induction false} SkippedHasCause(header: Header, steps: Steps, rank: Rank, n: string)
    requires Planned(header, steps, rank) && Sequenced(steps) && n in steps && steps[n].state.Skipped?
    ensures exists m :: m in steps && steps[m].state.Fatal() && !steps[m].state.Skipped?
    decreases rank[n]
  {
    var d :| d in steps[n].plan.after && d in steps && steps[d].state.Fatal();
    if steps[d].state.Skipped? {
      assert GraphOf(steps)[n] == steps[n].plan.after;
      SkippedHasCause(header, steps, rank, d);
    }
  }

  /** An uncanceled run ends completed exactly when every step did, although skipped steps do not decide its state. */
  lemma {:induction false} CompletedMeansEveryStep(run: Run, rank: Rank)
    requires Planned(run.header, run.steps, rank) && Sound(run) && !run.cancelRequested && run.state.Terminal()
    ensures run.state.RunCompleted? <==> forall n | n in run.steps :: run.steps[n].state.Completed?
  {
    forall n | n in run.steps
      ensures Has(run.steps, run.steps[n].state)
      ensures run.steps[n].state.Skipped? ==> Has(run.steps, Failed) || Has(run.steps, Blocked)
    {
      if run.steps[n].state.Skipped? {
        SkippedHasCause(run.header, run.steps, rank, n);
      }
    }
  }
}
