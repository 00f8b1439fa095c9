/**
 * Publishing as a transition system: the publication row of one session name, its publisher Job, the Pods that outlive
 * a removed Job, and GitHub. Between any two of its own steps the Job may push and end, a session delete may remove it,
 * and destroying the session drops the row; a session of that name may be started and published again.
 */
module PublishSteps {
  import opened Prelude
  import opened SessionTypes
  import opened OptimisticRows
  import opened Publications

  /** A branch and its open pull request, and how often this publication changed either. */
  datatype Remote = Remote(branch: Option<string>, pull: Option<Pull>, pushes: nat, creations: nat)

  const UNTOUCHED := Remote(None, None, 0, 0)

  type Remotes = map<Target, Remote>

  function At(remotes: Remotes, t: Target): Remote {
    if t in remotes then remotes[t] else UNTOUCHED
  }

  /** Pushes are not forced: a push takes effect only on a branch that is not there. */
  function Pushed(r: Remote, commit: string): Remote {
    if r.branch.None? then r.(branch := Some(commit), pushes := r.pushes + 1) else r
  }

  function PushTo(remotes: Remotes, t: Target, commit: string): Remotes {
    remotes[t := Pushed(At(remotes, t), commit)]
  }

  datatype JobPhase = Active | Complete | Failed

  /** One Job: the intent and target it was created for, the commit its container makes, and how it ended. */
  datatype Job = Job(intent: PublishIntent, target: Target, commit: string, phase: JobPhase)

  /** What a publisher container writes before it pushes. */
  datatype Report = Report(branch: string, commit: string)

  function ReportOf(job: Job): Report {
    Report(job.target.branch, job.commit)
  }

  /**
   * The row, the Job, the containers whose Job was removed under them, the commits of all containers there ever were, the
   * targets that were seen free since the row was created, and GitHub.
   */
  datatype World = World(
    row: Option<Row<Publication>>, job: Option<Job>, orphans: set<Job>, made: set<string>, seen: set<Target>, remotes: Remotes)

  /** The containers that may still push. */
  predicate Pushes(w: World, j: Job) {
    j in w.orphans || (w.job == Some(j) && j.phase.Active?)
  }

  // ---- What to do about a failed Job ----

  datatype Recovery = Retry | Record(commit: string) | GiveUp

  /** The branch decides: absent means another try, at the reported commit means published, anything else means conflict. */
  function RecoveryOf(remote: Option<string>, reported: Option<Report>, branch: string): Recovery {
    if remote.None? then Retry
    else if reported.Some? && reported.value.branch == branch && IsCommit(reported.value.commit)
            && remote.value == reported.value.commit then Record(remote.value)
    else GiveUp
  }

  // ---- The steps ----

  ghost predicate Creates(w: World, v: World) {
    w.row.None? && exists p :: Initial(p) && v == w.(row := Some(Row(p, 1)))
  }

  /** A pending publication's target is seen without a pull request and without a branch. */
  ghost predicate Checks(w: World, v: World) {
    && w.row.Some? && w.row.value.value.state.Pending?
    && var t := TargetOf(w.row.value.value.plan);
    At(w.remotes, t).pull.None? && At(w.remotes, t).branch.None? && v == w.(seen := w.seen + {t})
  }

  /** The row moves forward to the next value. */
  ghost predicate Saves(w: World, v: World, next: Publication) {
    && w.row.Some? && Forward(w.row.value.value, next)
    && v == w.(row := Some(Row(next, w.row.value.version + 1)))
  }

  /** What must hold when the row moves to its next value. */
  ghost predicate Due(w: World, p: Publication, next: Publication) {
    var r := At(w.remotes, TargetOf(p.plan));
    match next.state
    case Pending => false
    case Ready => TargetOf(p.plan) in w.seen
    case BranchPublished => w.job.Some? && !w.job.value.phase.Active? && w.job.value.commit == next.commit && r.branch == Some(next.commit)
    case PullRequestCreated => r.pull == next.pull
    case Completed => w.job.None?
    case Conflicted =>
      if p.state.Pending? then r.pull.Some? || r.branch.Some?
      else w.job.Some? && w.job.value.phase.Failed? && exists reported: Option<Report> ::
             (reported.Some? ==> reported.value == ReportOf(w.job.value))
             && RecoveryOf(r.branch, reported, TargetOf(p.plan).branch).GiveUp?
  }

  ghost predicate Advances(w: World, v: World) {
    exists next :: Saves(w, v, next) && Due(w, w.row.value.value, next)
  }

  /** A Job is created for a publication that is ready. */
  ghost predicate Launches(w: World, v: World) {
    && w.row.Some? && w.row.value.value.state.Ready? && w.job.None?
    && v.job.Some? && v.job.value.intent == w.row.value.value.plan.intent
    && v.job.value.target == TargetOf(w.row.value.value.plan) && v.job.value.phase.Active?
    && v == w.(job := v.job, made := w.made + {v.job.value.commit})
  }

  ghost predicate PushesOnce(w: World, v: World) {
    exists j :: Pushes(w, j) && v == w.(remotes := PushTo(w.remotes, j.target, j.commit))
  }

  /** The Job ends; it only succeeds after it saw the branch at its commit. */
  ghost predicate Ends(w: World, v: World) {
    && w.job.Some? && w.job.value.phase.Active? && v.job.Some?
    && v == w.(job := Some(w.job.value.(phase := v.job.value.phase)))
    && (v.job.value.phase.Complete? ==> At(w.remotes, w.job.value.target).branch == Some(w.job.value.commit))
  }

  /** The Job is removed in any phase, by publishing or with its session; a running container may go on for a while. */
  ghost predicate Removes(w: World, v: World) {
    && v == w.(job := None, orphans := v.orphans)
    && v.orphans <= w.orphans + if w.job.Some? && w.job.value.phase.Active? then {w.job.value} else {}
  }

  /** The session is destroyed: its row goes with it, and its Job if there still is one. */
  ghost predicate Drops(w: World, v: World) {
    && w.row.Some? && v == w.(row := None, job := None, orphans := v.orphans, seen := {})
    && v.orphans <= w.orphans + if w.job.Some? && w.job.value.phase.Active? then {w.job.value} else {}
  }

  ghost predicate OrphansEnd(w: World, v: World) {
    v == w.(orphans := v.orphans) && v.orphans <= w.orphans
  }

  /** A pull request is opened while none is open and the branch is at the recorded commit. */
  ghost predicate Opens(w: World, v: World) {
    && w.row.Some?
    && var p := w.row.value.value; var r := At(w.remotes, TargetOf(p.plan));
    && (p.state.BranchPublished? || p.state.PullRequestCreated?)
    && r.branch == Some(p.commit) && r.pull.None?
    && exists pull :: v == w.(remotes := w.remotes[TargetOf(p.plan) := r.(pull := Some(pull), creations := r.creations + 1)])
  }

  /** Somebody else changes a branch or its pull request. */
  ghost predicate Intrudes(w: World, v: World) {
    exists t, branch, pull :: v == w.(remotes := w.remotes[t := At(w.remotes, t).(branch := branch, pull := pull)])
  }

  ghost predicate Next(w: World, v: World, outsiders: bool) {
    || Creates(w, v) || Checks(w, v) || Advances(w, v) || Launches(w, v) || PushesOnce(w, v) || Ends(w, v) || Removes(w, v)
    || Drops(w, v) || OrphansEnd(w, v) || Opens(w, v) || (outsiders && Intrudes(w, v))
  }

  const START := World(None, None, {}, {}, {}, map[])

  ghost predicate Execution(trace: seq<World>, outsiders: bool) {
    && |trace| > 0 && trace[0] == START
    && forall i | 0 <= i < |trace| - 1 :: Next(trace[i], trace[i + 1], outsiders)
  }

  ghost predicate Reachable(w: World, outsiders: bool) {
    exists trace :: Execution(trace, outsiders) && trace[|trace| - 1] == w
  }

  lemma StartIsReachable(outsiders: bool)
    ensures Reachable(START, outsiders)
  {
    assert Execution([START], outsiders);
  }

  lemma Extend(w: World, v: World, outsiders: bool)
    requires Reachable(w, outsiders) && Next(w, v, outsiders)
    ensures Reachable(v, outsiders)
  {
    var trace :| Execution(trace, outsiders) && trace[|trace| - 1] == w;
    assert Execution(trace + [v], outsiders) && (trace + [v])[|trace|] == v;
  }

  // ---- Exactly once, when nobody else touches the target ----

  /** Any target: at most one push and one pull request, a branch exactly when one was pushed, and no pull request without. */
  ghost predicate OnceAt(r: Remote, made: set<string>) {
    && r.pushes <= 1 && r.creations <= r.pushes
    && (r.branch.None? <==> r.pushes == 0) && (r.pull.None? <==> r.creations == 0)
    && (r.branch.Some? ==> r.branch.value in made)
  }

  /** How the publication and its target fit together at every moment. */
  ghost predicate OnceFor(p: Publication, r: Remote, seen: set<Target>) {
    match p.state
    case Pending => TargetOf(p.plan) in seen ==> r.creations == 0
    case Ready => r.creations == 0
    case BranchPublished => r.branch == Some(p.commit) && IsCommit(p.commit)
    case PullRequestCreated => r.branch == Some(p.commit) && IsCommit(p.commit) && p.pull.Some? && r.pull == p.pull
    case Completed => r.branch == Some(p.commit) && IsCommit(p.commit) && p.pull.Some? && r.pull == p.pull
    case Conflicted => r.pushes == 1
  }

  ghost predicate JobFits(p: Publication, r: Remote, made: set<string>, job: Job) {
    && !p.state.Pending?
    && job.intent == p.plan.intent && job.target == TargetOf(p.plan) && job.commit in made
    && (job.phase.Complete? ==> r.branch == Some(job.commit))
  }

  ghost predicate Once(w: World) {
    && (forall t | t in w.remotes :: OnceAt(w.remotes[t], w.made))
    && (forall j | j in w.orphans :: j.commit in w.made)
    && match w.row
       case None => w.job.None? && w.seen == {}
       case Some(row) =>
         var r := At(w.remotes, TargetOf(row.value.plan));
         OnceFor(row.value, r, w.seen) && (w.job.Some? ==> JobFits(row.value, r, w.made, w.job.value))
  }

  lemma NextKeepsOnce(w: World, v: World)
    requires Once(w) && Next(w, v, false)
    ensures Once(v)
  {
    if Creates(w, v) {
    } else if Checks(w, v) {
      assert OnceAt(At(w.remotes, TargetOf(w.row.value.value.plan)), w.made);
    } else if Advances(w, v) {
      AdvanceKeepsOnce(w, v);
    } else if PushesOnce(w, v) {
      PushKeepsOnce(w, v);
    } else if Opens(w, v) {
      OpenKeepsOnce(w, v);
    } else if Launches(w, v) {
      LaunchKeepsOnce(w, v);
    } else if Ends(w, v) {
    } else if Removes(w, v) {
    } else if Drops(w, v) {
    }
  }

  lemma AdvanceKeepsOnce(w: World, v: World)
    requires Once(w) && Advances(w, v)
    ensures Once(v)
  {
    var next :| Saves(w, v, next) && Due(w, w.row.value.value, next);
    var t := TargetOf(w.row.value.value.plan);
    assert TargetOf(next.plan) == t;
    assert OnceAt(At(w.remotes, t), w.made);
  }

  lemma LaunchKeepsOnce(w: World, v: World)
    requires Once(w) && Launches(w, v)
    ensures Once(v)
  {}

  lemma PushKeepsOnce(w: World, v: World)
    requires Once(w) && PushesOnce(w, v)
    ensures Once(v)
  {
    var j :| Pushes(w, j) && v == w.(remotes := PushTo(w.remotes, j.target, j.commit));
    assert OnceAt(At(w.remotes, j.target), w.made);
    assert j.commit in w.made;
    assert OnceAt(Pushed(At(w.remotes, j.target), j.commit), v.made);
  }

  lemma OpenKeepsOnce(w: World, v: World)
    requires Once(w) && Opens(w, v)
    ensures Once(v)
  {
    assert OnceAt(At(w.remotes, TargetOf(w.row.value.value.plan)), w.made);
  }

  /** Undisturbed, once-only holds in every reachable world, whatever is removed, lost, destroyed, or retried. */
  lemma {:induction false} AlwaysOnce(trace: seq<World>, i: nat)
    requires Execution(trace, false) && i < |trace|
    ensures Once(trace[i])
  {
    if i > 0 {
      AlwaysOnce(trace, i - 1);
      NextKeepsOnce(trace[i - 1], trace[i]);
    }
  }

  lemma ReachableOnce(w: World)
    requires Reachable(w, false)
    ensures Once(w)
  {
    var trace :| Execution(trace, false) && trace[|trace| - 1] == w;
    AlwaysOnce(trace, |trace| - 1);
  }

  /** At most one push and one pull request ever take effect, for any target, however often its session is started again. */
  lemma AtMostOnce(w: World, t: Target)
    requires Reachable(w, false)
    ensures At(w.remotes, t).pushes <= 1 && At(w.remotes, t).creations <= 1
  {
    ReachableOnce(w);
    assert OnceAt(At(w.remotes, t), w.made);
  }

  /** The target of a completed publication had exactly one push and one pull request, and the publication names both. */
  lemma CompletedOnce(w: World)
    requires Reachable(w, false) && w.row.Some? && w.row.value.value.state.Completed?
    ensures var p := w.row.value.value; var r := At(w.remotes, TargetOf(p.plan));
            r.pushes == 1 && r.creations == 1 && r.branch == Some(p.commit) && IsCommit(p.commit) && r.pull == p.pull
  {
    ReachableOnce(w);
    assert OnceAt(At(w.remotes, TargetOf(w.row.value.value.plan)), w.made);
  }

  // ---- When a pending publication conflicts ----

  /**
   * Undisturbed, a pending publication can become conflicted exactly when its branch is there, which is when this server
   * has pushed to it before, and is seen free exactly when it is not.
   */
  lemma PendingConflictsExactly(w: World, next: Publication)
    requires Reachable(w, false) && w.row.Some? && w.row.value.value.state.Pending? && Forward(w.row.value.value, next)
    ensures var r := At(w.remotes, TargetOf(w.row.value.value.plan));
            && (next.state.Conflicted? ==> (Due(w, w.row.value.value, next) <==> r.branch.Some?))
            && ((exists v :: Checks(w, v)) <==> r.branch.None?)
            && (r.branch.Some? <==> r.pushes == 1) && (r.branch.Some? ==> r.branch.value in w.made)
  {
    ReachableOnce(w);
    var t := TargetOf(w.row.value.value.plan);
    assert OnceAt(At(w.remotes, t), w.made);
    if At(w.remotes, t).branch.None? { assert Checks(w, w.(seen := w.seen + {t})); }
  }

  // ---- When a ready publication is given up ----

  /**
   * Undisturbed, a failed Job makes a ready publication conflict exactly when the branch is there and the Job's report
   * was lost, or the branch was pushed by another of its own Jobs, one that is gone.
   */
  lemma GivesUpExactly(w: World, reported: Option<Report>)
    requires Reachable(w, false) && w.row.Some? && w.row.value.value.state.Ready?
    requires w.job.Some? && w.job.value.phase.Failed? && IsCommit(w.job.value.commit)
    requires reported.Some? ==> reported.value == ReportOf(w.job.value)
    ensures var t := TargetOf(w.row.value.value.plan); var r := At(w.remotes, t);
            && (RecoveryOf(r.branch, reported, t.branch).GiveUp? <==>
                  r.branch.Some? && (reported.None? || r.branch.value != w.job.value.commit))
            && (r.branch.Some? ==> r.pushes == 1 && r.branch.value in w.made)
            && (RecoveryOf(r.branch, reported, t.branch).Retry? <==> r.branch.None?)
  {
    ReachableOnce(w);
    assert OnceAt(At(w.remotes, TargetOf(w.row.value.value.plan)), w.made);
  }

  function JobFor(plan: Plan, commit: string, phase: JobPhase): Job {
    Job(plan.intent, TargetOf(plan), commit, phase)
  }

  function Value(plan: Plan, state: PublishState): Publication {
    Publication(plan, state, "", None, "", 0)
  }

  /** A reachable world in which the publication is ready and no Job was created yet. */
  lemma ReadyWorld(plan: Plan, outsiders: bool) returns (w: World)
    ensures Reachable(w, outsiders) && w == World(Some(Row(Value(plan, Ready), 2)), None, {}, {}, {TargetOf(plan)}, map[])
  {
    StartIsReachable(outsiders);
    var u := START.(row := Some(Row(Value(plan, Pending), 1)));
    assert Initial(Value(plan, Pending)) && Creates(START, u);
    Extend(START, u, outsiders);
    var v := u.(seen := {} + {TargetOf(plan)});
    assert Checks(u, v);
    Extend(u, v, outsiders);
    w := v.(row := Some(Row(Value(plan, Ready), 2)));
    assert Saves(v, w, Value(plan, Ready)) && Due(v, Value(plan, Pending), Value(plan, Ready));
    Extend(v, w, outsiders);
  }

  /** The Job is created, pushes, and is still running. */
  lemma PushedWorld(plan: Plan, commit: string) returns (w: World)
    ensures Reachable(w, false)
    ensures w == World(Some(Row(Value(plan, Ready), 2)), Some(JobFor(plan, commit, Active)), {}, {commit}, {TargetOf(plan)},
                       map[TargetOf(plan) := Remote(Some(commit), None, 1, 0)])
  {
    var u0 := ReadyWorld(plan, false);
    var u1 := u0.(job := Some(JobFor(plan, commit, Active)), made := {commit});
    assert Launches(u0, u1);
    Extend(u0, u1, false);
    w := u1.(remotes := PushTo(u1.remotes, TargetOf(plan), commit));
    assert Pushes(u1, JobFor(plan, commit, Active)) && PushesOnce(u1, w);
    Extend(u1, w, false);
  }

  /** First input: a Job that pushed fails afterwards and its report cannot be read. */
  lemma LostReportConflicts(plan: Plan, commit: string) returns (w: World, v: World)
    requires IsCommit(commit)
    ensures Reachable(w, false) && w.row == Some(Row(Value(plan, Ready), 2))
    ensures w.job == Some(JobFor(plan, commit, Failed)) && At(w.remotes, TargetOf(plan)).branch == Some(commit)
    ensures RecoveryOf(Some(commit), None, TargetOf(plan).branch).GiveUp?
    ensures RecoveryOf(Some(commit), Some(ReportOf(w.job.value)), TargetOf(plan).branch) == Record(commit)
    ensures Next(w, v, false) && v.row == Some(Row(Value(plan, Conflicted), 3)) && At(v.remotes, TargetOf(plan)).pushes == 1
  {
    var u := PushedWorld(plan, commit);
    w := u.(job := Some(JobFor(plan, commit, Failed)));
    assert Ends(u, w);
    Extend(u, w, false);
    v := GivenUp(plan, w, None);
  }

  lemma GivenUp(plan: Plan, w: World, reported: Option<Report>) returns (v: World)
    requires w.row == Some(Row(Value(plan, Ready), 2)) && w.job.Some? && w.job.value.phase.Failed?
    requires reported.Some? ==> reported.value == ReportOf(w.job.value)
    requires RecoveryOf(At(w.remotes, TargetOf(plan)).branch, reported, TargetOf(plan).branch).GiveUp?
    ensures Next(w, v, false) && v == w.(row := Some(Row(Value(plan, Conflicted), 3)))
  {
    v := w.(row := Some(Row(Value(plan, Conflicted), 3)));
    assert Saves(w, v, Value(plan, Conflicted)) && Due(w, Value(plan, Ready), Value(plan, Conflicted));
  }

  /** Second input: the session's compute is deleted after its Job pushed, and the next Job's push is rejected. */
  lemma RemovedJobConflicts(plan: Plan, commit: string, second: string) returns (w: World, v: World)
    requires IsCommit(commit) && IsCommit(second) && second != commit
    ensures Reachable(w, false) && w.row == Some(Row(Value(plan, Ready), 2))
    ensures w.job == Some(JobFor(plan, second, Failed)) && At(w.remotes, TargetOf(plan)).branch == Some(commit)
    ensures RecoveryOf(Some(commit), Some(ReportOf(w.job.value)), TargetOf(plan).branch).GiveUp?
    ensures Next(w, v, false) && v.row == Some(Row(Value(plan, Conflicted), 3)) && At(v.remotes, TargetOf(plan)).pushes == 1
  {
    var u0 := PushedWorld(plan, commit);
    var u1 := u0.(job := None);
    assert Removes(u0, u1);
    Extend(u0, u1, false);
    var u2 := u1.(job := Some(JobFor(plan, second, Active)), made := {commit} + {second});
    assert Launches(u1, u2);
    Extend(u1, u2, false);
    w := u2.(job := Some(JobFor(plan, second, Failed)));
    assert Ends(u2, w);
    Extend(u2, w, false);
    v := GivenUp(plan, w, Some(ReportOf(w.job.value)));
  }

  /**
   * Third input: the session is destroyed after its Job pushed, is started again, and the same is published again. Its
   * own branch then reads as someone else's.
   */
  lemma DestroyedSessionConflicts(plan: Plan, commit: string) returns (w: World, v: World)
    requires IsCommit(commit)
    ensures Reachable(w, false) && w.row == Some(Row(Value(plan, Pending), 1)) && w.job.None? && w.orphans == {}
    ensures At(w.remotes, TargetOf(plan)) == Remote(Some(commit), None, 1, 0)
    ensures Next(w, v, false) && v.row == Some(Row(Value(plan, Conflicted), 2)) && At(v.remotes, TargetOf(plan)).pushes == 1
  {
    var u0 := PushedWorld(plan, commit);
    var u1 := u0.(row := None, job := None, seen := {});
    assert Drops(u0, u1);
    Extend(u0, u1, false);
    w := u1.(row := Some(Row(Value(plan, Pending), 1)));
    assert Initial(Value(plan, Pending)) && Creates(u1, w);
    Extend(u1, w, false);
    v := w.(row := Some(Row(Value(plan, Conflicted), 2)));
    assert Saves(w, v, Value(plan, Conflicted)) && Due(w, Value(plan, Pending), Value(plan, Conflicted));
  }

  // ---- When a publication completes without a commit ----

  /** A pull request that someone else opens while the publication is ready is taken over, and it completes without a commit. */
  lemma OutsidePullCompletes(plan: Plan, pull: Pull) returns (w: World)
    ensures Reachable(w, true) && w.row.Some? && w.row.value.value.state.Completed?
    ensures w.row.value.value.commit == "" && w.row.value.value.pull == Some(pull)
    ensures At(w.remotes, TargetOf(plan)).pushes == 0 && At(w.remotes, TargetOf(plan)).creations == 0
  {
    var u0 := ReadyWorld(plan, true);
    var t := TargetOf(plan);
    var u1 := u0.(remotes := u0.remotes[t := At(u0.remotes, t).(branch := None, pull := Some(pull))]);
    assert Intrudes(u0, u1);
    Extend(u0, u1, true);
    var adopted := Value(plan, PullRequestCreated).(pull := Some(pull));
    var u2 := u1.(row := Some(Row(adopted, 3)));
    assert Saves(u1, u2, adopted) && Due(u1, Value(plan, Ready), adopted);
    Extend(u1, u2, true);
    var done := adopted.(state := Completed);
    w := u2.(row := Some(Row(done, 4)));
    assert Saves(u2, w, done) && Due(u2, adopted, done);
    Extend(u2, w, true);
  }
}
