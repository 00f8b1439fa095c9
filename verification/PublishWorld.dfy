/**
 * What publishing works against: one session's publication row, its publisher Job, and GitHub. Every call may
 * fail, a failing call may have taken effect, and containers go on by themselves between calls. Undisturbed, every
 * call takes the world from one reachable state of the publish steps to another.
 */
module PublishWorld {
  import SessionStore
  import opened Prelude
  import opened SessionTypes
  import opened Publications
  import opened PublishSteps
  import opened OptimisticRows

  datatype PublishError = NotFound | Conflict | Unavailable

  // ---- GitHub ----

  /** A pull request as it was opened. */
  datatype OpenedPull = OpenedPull(repository: string, head: string, base: string, title: string, body: string, draft: bool, pull: Pull)

  class GitHub {
    const outsiders: bool
    var remotes: Remotes
    /** Targets for which no open pull request, and then no branch, was seen. */
    var seenFree: set<Target>
    /** Targets whose branch was seen at a commit. */
    ghost var seenAt: set<(Target, string)>
    /** What was there whenever GitHub answered about an open pull request. */
    ghost var answers: seq<Remotes>
    /** The pull requests that were opened here, in order. */
    ghost var pulls: seq<OpenedPull>

    constructor (outsiders: bool)
      ensures this.outsiders == outsiders && remotes == map[] && seenFree == {} && seenAt == {} && answers == [] && pulls == []
    {
      this.outsiders := outsiders;
      remotes, seenFree, seenAt, answers, pulls := map[], {}, {}, [], [];
    }

    /** Whatever outsiders do to branches and pull requests; our own counts stay. */
    method Others()
      modifies `remotes
      ensures !outsiders ==> remotes == old(remotes)
    {
      if !outsiders { return; }
      var t: Target := *;
      var branch: Option<string> := *;
      var pull: Option<Pull> := *;
      remotes := remotes[t := At(remotes, t).(branch := branch, pull := pull)];
    }

    /** The open pull request of a target, if there is one. */
    method FindOpenPullRequest(t: Target) returns (r: Option<Option<Pull>>)
      modifies `remotes, `answers
      ensures !outsiders ==> remotes == old(remotes)
      ensures r.Some? ==> r.value == At(remotes, t).pull && answers == old(answers) + [remotes]
      ensures old(answers) <= answers
      ensures r.Some? ==> Answered(old(answers), answers, t, r.value)
    {
      Others();
      var reachable: bool := *;
      if !reachable { return None; }
      answers := answers + [remotes];
      assert answers[|old(answers)|] == remotes;
      r := Some(At(remotes, t).pull);
    }

    /** The commit of a target's branch, if there is one. */
    method BranchCommit(t: Target) returns (r: Option<Option<string>>)
      modifies `remotes
      ensures !outsiders ==> remotes == old(remotes)
      ensures r.Some? ==> r.value == At(remotes, t).branch && r.value != Some("")
    {
      Others();
      var reachable: bool := *;
      r := if reachable && At(remotes, t).branch != Some("") then Some(At(remotes, t).branch) else None;
    }

    /** Looks for an open pull request and then for a branch; finding neither is remembered. */
    method CheckFree(t: Target) returns (r: Option<bool>)
      modifies `remotes, `seenFree, `answers
      ensures !outsiders ==> remotes == old(remotes)
      ensures seenFree == if r == Some(true) then old(seenFree) + {t} else old(seenFree)
      ensures r == Some(true) ==> At(remotes, t).branch.None?
      ensures old(answers) <= answers
      ensures !outsiders && r.Some? ==> (r.value <==> At(remotes, t).pull.None? && At(remotes, t).branch.None?)
    {
      var pull := FindOpenPullRequest(t);
      if pull.None? { return None; }
      var branch := BranchCommit(t);
      if branch.None? { return None; }
      if pull.value.Some? || branch.value.Some? { return Some(false); }
      seenFree := seenFree + {t};
      r := Some(true);
    }

    /** Waits for the branch and checks that it is at the expected commit. */
    method WaitForBranchCommit(t: Target, commit: string) returns (ok: bool)
      modifies `remotes, `seenAt
      ensures !outsiders ==> remotes == old(remotes)
      ensures old(seenAt) <= seenAt
      ensures ok ==> (t, commit) in seenAt && At(remotes, t).branch == Some(commit) && commit != ""
    {
      var polls: nat := *;
      while polls > 0
        invariant !outsiders ==> remotes == old(remotes)
        invariant seenAt == old(seenAt)
        decreases polls
      {
        polls := polls - 1;
        var branch := BranchCommit(t);
        if branch.None? { return false; }
        if branch.value.Some? {
          if branch.value.value != commit { return false; }
          seenAt := seenAt + {(t, commit)};
          return true;
        }
      }
      ok := false;
    }

    /** Waits for an open pull request; none may have appeared when the time is up. */
    method WaitForOpenPullRequest(t: Target) returns (r: Option<Option<Pull>>)
      modifies `remotes, `answers
      ensures !outsiders ==> remotes == old(remotes)
      ensures r.Some? && r.value.Some? ==> r.value == At(remotes, t).pull
      ensures !outsiders ==> (r.Some? ==> r.value == At(remotes, t).pull)
      ensures old(answers) <= answers
    {
      var polls: nat := *;
      r := FindOpenPullRequest(t);
      while polls > 0
        invariant !outsiders ==> remotes == old(remotes)
        invariant r.Some? && r.value.Some? ==> r.value == At(remotes, t).pull
        invariant !outsiders ==> (r.Some? ==> r.value == At(remotes, t).pull)
        invariant old(answers) <= answers
        decreases polls
      {
        if r.None? || r.value.Some? { return; }
        polls := polls - 1;
        r := FindOpenPullRequest(t);
      }
    }

    /**
     * Opens a pull request; nothing here keeps a second one from being opened. The branch must have been seen at
     * the commit that is durably recorded.
     */
    method CreatePullRequest(t: Target, title: string, body: string, draft: bool, ghost rows: PublicationRepository, ghost commit: string)
      returns (r: Option<Pull>)
      requires rows.Valid() && rows.RecordedAt(t, commit) && (t, commit) in seenAt
      modifies `remotes, `pulls
      ensures old(pulls) <= pulls && |pulls| <= |old(pulls)| + 1
      ensures forall i | |old(pulls)| <= i < |pulls| ::
                && pulls[i].head == t.branch && pulls[i].base == t.base && pulls[i].repository == t.repository
                && pulls[i].title == title && pulls[i].body == body && pulls[i].draft == draft && At(remotes, t).pull == Some(pulls[i].pull)
      ensures r.Some? || (!outsiders && remotes != old(remotes)) ==> |pulls| == |old(pulls)| + 1
      ensures r.Some? ==> At(remotes, t).pull == r
      ensures !outsiders ==> CreatedAtMost(t, old(remotes), remotes)
      ensures !outsiders && r.Some? ==> At(remotes, t).creations == At(old(remotes), t).creations + 1
    {
      Others();
      var taken: bool := *;
      if !taken { return None; }
      var pull: Pull := *;
      var was := At(remotes, t);
      remotes := remotes[t := was.(pull := Some(pull), creations := was.creations + 1)];
      pulls := pulls + [OpenedPull(t.repository, t.branch, t.base, title, body, draft, pull)];
      var acknowledged: bool := *;
      r := if acknowledged then Some(pull) else None;
    }
  }

  /** Between two logs of answers GitHub gave this answer about a target. */
  ghost predicate Answered(a: seq<Remotes>, b: seq<Remotes>, t: Target, pull: Option<Pull>) {
    exists i :: |a| <= i < |b| && pull == At(b[i], t).pull
  }

  lemma StillAnswered(a: seq<Remotes>, b: seq<Remotes>, c: seq<Remotes>, d: seq<Remotes>, t: Target, pull: Option<Pull>)
    requires Answered(b, c, t, pull) && a <= b && c <= d
    ensures Answered(a, d, t, pull)
  {}

  /** Nothing changed, or one pull request was opened. */
  ghost predicate CreatedAtMost(t: Target, a: Remotes, b: Remotes) {
    || b == a
    || (&& b - {t} == a - {t} && t in b && b[t].pull.Some?
        && b[t] == At(a, t).(pull := b[t].pull, creations := At(a, t).creations + 1))
  }

  // ---- The publication row ----

  ghost predicate RowStored(row: Option<Row<Publication>>, history: seq<Publication>) {
    match row
    case None => history == []
    case Some(r) => PublicationChain(history) && r == Row(history[|history| - 1], |history|)
  }

  /** Every target that durably became ready was seen free. */
  ghost predicate Seen(history: seq<Publication>, seenFree: set<Target>) {
    forall i | 0 <= i < |history| && history[i].state.Ready? :: TargetOf(history[i].plan) in seenFree
  }

  class PublicationRepository {
    const session: string
    const alone: bool
    var row: Option<Row<Publication>>
    ghost var history: seq<Publication>

    ghost predicate Valid()
      reads this
    {
      RowStored(row, history)
    }

    /** This publication was durably ready. */
    ghost predicate WasReady(plan: Plan)
      reads this
    {
      exists i :: 0 <= i < |history| && history[i].state.Ready? && history[i].plan == plan
    }

    /** A branch published at this commit was durably recorded for this target. */
    ghost predicate RecordedAt(t: Target, commit: string)
      reads this
    {
      exists i :: 0 <= i < |history| && history[i].state.BranchPublished? && history[i].commit == commit && TargetOf(history[i].plan) == t
    }

    constructor (session: string, alone: bool)
      ensures Valid() && this.session == session && this.alone == alone && row == None && history == []
    {
      this.session, this.alone := session, alone;
      row, history := None, [];
    }

    /** Forward changes that other servers save. */
    method Others(github: GitHub)
      requires Valid()
      modifies this
      ensures Valid() && old(history) <= history
      ensures Seen(old(history), github.seenFree) ==> Seen(history, github.seenFree)
      ensures alone || old(row).None? ==> row == old(row) && history == old(history)
    {
      if alone || row.None? { return; }
      var more: nat := *;
      while more > 0
        invariant Valid() && row.Some? && old(history) <= history
        invariant Seen(old(history), github.seenFree) ==> Seen(history, github.seenFree)
        decreases more
      {
        more := more - 1;
        var next: Publication := *;
        if Forward(row.value.value, next) && (next.state.Ready? ==> TargetOf(next.plan) in github.seenFree) {
          history := history + [next];
          row := Some(Row(next, row.value.version + 1));
        }
      }
    }

    /** Inserts the publication; an error after an insert that took effect reads as a conflict, or as unavailable. */
    method Create(p: Publication, github: GitHub) returns (r: Result<Row<Publication>, PublishError>)
      requires Valid() && Initial(p)
      modifies this
      ensures Valid() && old(history) <= history
      ensures Seen(old(history), github.seenFree) ==> Seen(history, github.seenFree)
      ensures r.Success? ==> old(row).None? && row == Some(r.value) && r.value == Row(p, 1)
      ensures alone ==> row == old(row) || (old(row).None? && row == Some(Row(p, 1)))
      ensures old(row).None? ==> row.None? || row == Some(Row(p, 1))
      ensures r == Failure(Conflict) ==> row.Some?
      ensures r != Failure(NotFound)
    {
      Others(github);
      var reachable: bool := *;
      if !reachable { return Failure(Unavailable); }
      if row.None? {
        row := Some(Row(p, 1));
        history := [p];
        var acknowledged: bool := *;
        if acknowledged { return Success(row.value); }
      }
      reachable := *;
      r := Failure(if reachable then Conflict else Unavailable);
    }

    method Get(github: GitHub) returns (r: Result<Row<Publication>, PublishError>)
      requires Valid()
      modifies this
      ensures Valid() && old(history) <= history
      ensures Seen(old(history), github.seenFree) ==> Seen(history, github.seenFree)
      ensures alone || old(row).None? ==> row == old(row) && history == old(history)
      ensures r.Success? ==> row == Some(r.value)
    {
      Others(github);
      var reachable: bool := *;
      if !reachable { return Failure(Unavailable); }
      r := if row.Some? then Success(row.value) else Failure(NotFound);
    }

    /** The row goes when the session that it refers to is removed, and with it all it was. */
    method Cascade(github: GitHub)
      requires Valid()
      modifies this, github`seenFree, github`seenAt
      ensures Valid() && row == None && history == [] && github.seenFree == {}
    {
      row, history := None, [];
      github.seenFree, github.seenAt := {}, {};
    }

    /** What a server holds was the row's value at its version. */
    ghost predicate Held(held: Row<Publication>)
      reads this
    {
      0 < held.version <= |history| && history[held.version - 1] == held.value
    }

    /**
     * Replaces the publication only when the held version is current. It must be a move forward, and it may only
     * become ready after GitHub showed neither a pull request nor a branch.
     */
    method Update(held: Row<Publication>, next: Publication, github: GitHub) returns (r: Result<Row<Publication>, PublishError>)
      requires Valid() && Held(held) && Forward(held.value, next)
      requires next.state.Ready? ==> TargetOf(next.plan) in github.seenFree
      modifies this
      ensures Valid() && old(history) <= history
      ensures Seen(old(history), github.seenFree) ==> Seen(history, github.seenFree)
      ensures r.Success? ==> row == Some(r.value) && r.value == Row(next, held.version + 1) && Held(r.value)
      ensures alone && old(row) == Some(held) ==> row == Some(held) || row == Some(Row(next, held.version + 1))
      ensures alone && old(row) == Some(held) && r.Failure? ==> r.error.Unavailable?
    {
      Others(github);
      var reachable: bool := *;
      if !reachable { return Failure(Unavailable); }
      if row.value.version != held.version { return Failure(Conflict); }
      row := Some(OptimisticRows.Update(row.value, held.version, next));
      history := history + [next];
      var acknowledged: bool := *;
      r := if acknowledged then Success(row.value) else Failure(Unavailable);
    }
  }

  // ---- The publisher Job ----

  /** Undisturbed targets keep their pull requests, their counts of them, and every branch that is there. */
  ghost predicate Onward(a: Remotes, b: Remotes) {
    forall t ::
      && At(b, t).pull == At(a, t).pull && At(b, t).creations == At(a, t).creations
      && (At(a, t).branch.Some? ==> At(b, t).branch == At(a, t).branch)
  }

  lemma OnwardTransitive(a: Remotes, b: Remotes, c: Remotes)
    requires Onward(a, b) && Onward(b, c)
    ensures Onward(a, c)
  {}

  lemma OnwardReflexive(a: Remotes)
    ensures Onward(a, a)
  {}

  lemma PushIsOnward(a: Remotes, t: Target, commit: string)
    ensures Onward(a, PushTo(a, t, commit))
  {}

  /** The same Job, possibly ended. */
  predicate SameJob(a: Option<Job>, b: Option<Job>) {
    (a.Some? <==> b.Some?) && (a.Some? ==> b.value == a.value.(phase := b.value.phase) && (!a.value.phase.Active? ==> b == a))
  }

  /** What a publisher Job is handed, apart from credentials. */
  datatype PublisherRequest = PublisherRequest(
    session: string, intent: PublishIntent, image: string, repository: string, base: string, branch: string, message: string,
    change: Option<ChangeArtifact>, timeout: int)

  /** A Job is handed what the durable publication says. */
  predicate HandsOver(q: PublisherRequest, plan: Plan) {
    && q.session == plan.intent.request.session && q.intent == plan.intent && q.image == plan.image
    && q.repository == plan.intent.repository && q.base == plan.intent.request.baseBranch && q.branch == plan.intent.request.branch
    && q.message == plan.intent.request.commitMessage && q.change == plan.change && q.timeout == plan.intent.request.timeout
  }

  datatype PublishOutcome =
    | Published(report: Report)
    | ExecutionFailed(reported: Option<Report>)
    | NoResult

  class Publisher {
    const cluster: SessionStore.Runtime
    const session: string
    var job: Option<Job>
    /** Containers whose Job was removed while they ran. */
    var orphans: set<Job>
    /** The commits of all Jobs there ever were. */
    ghost var made: set<string>
    /** What they were handed, in order. */
    ghost var handed: seq<PublisherRequest>

    constructor (cluster: SessionStore.Runtime, session: string)
      requires session !in cluster.publishers
      ensures this.cluster == cluster && this.session == session && job == None && orphans == {} && made == {} && handed == [] && Listed()
    {
      this.cluster, this.session := cluster, session;
      job, orphans, made, handed := None, {}, {}, [];
    }

    /** The cluster finds the publisher's Job by the session's label exactly while there is one. */
    ghost predicate Listed()
      reads this, cluster
    {
      job.Some? <==> session in cluster.publishers
    }

    /** Other sessions' publisher Jobs are what they were. */
    twostate predicate OthersListed()
      reads cluster
    {
      cluster.publishers - {session} == old(cluster.publishers) - {session}
    }

    ghost function WorldOf(row: Option<Row<Publication>>, github: GitHub): World
      reads this, github
    {
      World(row, job, orphans, made, github.seenFree, github.remotes)
    }

    /** Nobody else is on GitHub, and with this row the world is a reachable one. */
    ghost predicate Tracked(row: Option<Row<Publication>>, github: GitHub)
      reads this, github
    {
      !github.outsiders && Reachable(WorldOf(row, github), false)
    }

    /** One container pushes; an existing branch rejects the push unless an outsider made it one that can be moved. */
    method Push(j: Job, github: GitHub, ghost row: Option<Row<Publication>>)
      requires j in orphans || (job == Some(j) && j.phase.Active?)
      modifies github`remotes
      ensures old(Tracked(row, github)) ==> Tracked(row, github)
      ensures !github.outsiders ==> Onward(old(github.remotes), github.remotes)
    {
      ghost var w := WorldOf(row, github);
      PushIsOnward(github.remotes, j.target, j.commit);
      var moved: bool := *;
      var r := At(github.remotes, j.target);
      if github.outsiders && moved && r.branch.Some? {
        github.remotes := github.remotes[j.target := r.(branch := Some(j.commit), pushes := r.pushes + 1)];
      } else {
        github.remotes := PushTo(github.remotes, j.target, j.commit);
        if old(Tracked(row, github)) {
          assert Pushes(w, j) && PushesOnce(w, WorldOf(row, github));
          Extend(w, WorldOf(row, github), false);
        }
      }
    }

    /** The running Job may end; it only succeeds after it saw the branch at its commit. */
    method MayEnd(github: GitHub, ghost row: Option<Row<Publication>>)
      modifies `job
      ensures SameJob(old(job), job)
      ensures old(Tracked(row, github)) ==> Tracked(row, github)
    {
      var ends, succeeds: bool := *, *;
      if !ends || job.None? || !job.value.phase.Active? { return; }
      ghost var w := WorldOf(row, github);
      succeeds := succeeds && At(github.remotes, job.value.target).branch == Some(job.value.commit);
      job := Some(job.value.(phase := if succeeds then Complete else Failed));
      if old(Tracked(row, github)) {
        assert Ends(w, WorldOf(row, github));
        Extend(w, WorldOf(row, github), false);
      }
    }

    /** Containers go on by themselves: each may push, the Job may end, and orphans may end. */
    method Tick(github: GitHub, ghost row: Option<Row<Publication>>)
      modifies `job, `orphans, github`remotes
      ensures SameJob(old(job), job) && orphans <= old(orphans)
      ensures old(Tracked(row, github)) ==> Tracked(row, github)
      ensures !github.outsiders ==> Onward(old(github.remotes), github.remotes)
    {
      hide Reachable, Onward;
      OnwardReflexive(github.remotes);
      github.Others();
      var running := orphans;
      if job.Some? && job.value.phase.Active? { running := running + {job.value}; }
      while running != {}
        invariant running <= orphans + if job.Some? && job.value.phase.Active? then {job.value} else {}
        invariant job == old(job) && orphans == old(orphans)
        invariant old(Tracked(row, github)) ==> Tracked(row, github)
        invariant !github.outsiders ==> Onward(old(github.remotes), github.remotes)
        decreases running
      {
        var j :| j in running;
        running := running - {j};
        var pushes: bool := *;
        if pushes {
          ghost var a := github.remotes;
          Push(j, github, row);
          if !github.outsiders { OnwardTransitive(old(github.remotes), a, github.remotes); }
        }
      }
      MayEnd(github, row);
      ghost var w := WorldOf(row, github);
      var stay: set<Job> := *;
      orphans := orphans * stay;
      if old(Tracked(row, github)) {
        assert OrphansEnd(w, WorldOf(row, github));
        Extend(w, WorldOf(row, github), false);
      }
    }

    /**
     * Ensures the one Job of this session exists and waits for it. The target must durably have become ready, after
     * GitHub showed it free. A failed Job may not report, and one that reports may not have pushed.
     */
    method RunPublisher(request: PublisherRequest, github: GitHub, ghost rows: PublicationRepository, ghost plan: Plan) returns (r: PublishOutcome)
      requires rows.Valid() && rows.WasReady(plan) && TargetOf(plan) in github.seenFree && HandsOver(request, plan)
      requires rows.alone ==> rows.row.Some? && rows.row.value.value.state.Ready? && rows.row.value.value.plan == plan
      requires Listed()
      modifies this, cluster`publishers, github`remotes
      ensures Listed() && OthersListed() && handed in {old(handed), old(handed) + [request]}
      ensures rows.alone && old(Tracked(rows.row, github)) ==> Tracked(rows.row, github)
      ensures !github.outsiders ==> Onward(old(github.remotes), github.remotes)
      ensures old(job).Some? ==> SameJob(old(job), job)
      ensures r.Published? ==> job.Some? && job.value.phase.Complete? && r.report == ReportOf(job.value)
      ensures r.ExecutionFailed? ==> job.Some? && job.value.phase.Failed? && (r.reported.Some? ==> r.reported.value == ReportOf(job.value))
      ensures !r.NoResult? ==> job.value.intent == request.intent
    {
      hide Reachable, Onward;
      OnwardReflexive(github.remotes);
      var reachable: bool := *;
      if !reachable || (job.Some? && job.value.intent != request.intent) { return NoResult; }
      if job.None? {
        ghost var w := WorldOf(rows.row, github);
        var commit: string := *;
        job := Some(Job(request.intent, Target(request.repository, request.branch, request.base), commit, Active));
        made := made + {commit};
        handed := handed + [request];
        cluster.publishers := cluster.publishers + {session};
        if rows.alone && old(Tracked(rows.row, github)) {
          assert Launches(w, WorldOf(rows.row, github));
          Extend(w, WorldOf(rows.row, github), false);
        }
      }
      r := WaitForJob(github, rows.row);
    }

    /** Polls until the Job has ended, a call fails, or the time is up; another container beside the Job's hides its report. */
    method WaitForJob(github: GitHub, ghost row: Option<Row<Publication>>) returns (r: PublishOutcome)
      requires job.Some?
      modifies `job, `orphans, github`remotes
      ensures SameJob(old(job), job)
      ensures old(Tracked(row, github)) ==> Tracked(row, github)
      ensures !github.outsiders ==> Onward(old(github.remotes), github.remotes)
      ensures r.Published? ==> job.value.phase.Complete? && r.report == ReportOf(job.value)
      ensures r.ExecutionFailed? ==> job.value.phase.Failed? && (r.reported.Some? ==> r.reported.value == ReportOf(job.value))
    {
      hide Reachable, Onward;
      OnwardReflexive(github.remotes);
      var polls: nat := *;
      while polls > 0
        invariant SameJob(old(job), job)
        invariant old(Tracked(row, github)) ==> Tracked(row, github)
        invariant !github.outsiders ==> Onward(old(github.remotes), github.remotes)
        decreases polls
      {
        polls := polls - 1;
        ghost var a := github.remotes;
        Tick(github, row);
        if !github.outsiders { OnwardTransitive(old(github.remotes), a, github.remotes); }
        var reachable, readable: bool := *, *;
        if !reachable { return NoResult; }
        readable := readable && orphans == {} && IsCommit(job.value.commit);
        if job.value.phase.Failed? {
          return ExecutionFailed(if readable then Some(ReportOf(job.value)) else None);
        }
        if job.value.phase.Complete? {
          return if readable then Published(ReportOf(job.value)) else NoResult;
        }
      }
      r := NoResult;
    }

    /** Removes the session's Job and waits until it and all its containers are gone; until then they may go on. */
    method DeletePublisher(github: GitHub, ghost row: Option<Row<Publication>>) returns (ok: bool)
      requires Listed()
      modifies `job, `orphans, cluster`publishers, github`remotes
      ensures Listed() && OthersListed()
      ensures ok ==> job.None? && orphans == {}
      ensures old(Tracked(row, github)) ==> Tracked(row, github)
      ensures !github.outsiders ==> Onward(old(github.remotes), github.remotes)
    {
      hide Reachable, Onward;
      ghost var a := github.remotes;
      var removed: bool := *;
      if removed { RemoveJob(github, row); }
      Tick(github, row);
      if !github.outsiders { OnwardTransitive(a, a, github.remotes) by { OnwardReflexive(a); } }
      var acknowledged: bool := *;
      ok := removed && orphans == {} && acknowledged;
    }

    /** The Job goes at once, its container when it ends. */
    method RemoveJob(github: GitHub, ghost row: Option<Row<Publication>>)
      modifies `job, `orphans, cluster`publishers
      ensures job.None? && cluster.publishers == old(cluster.publishers) - {session}
      ensures old(Tracked(row, github)) ==> Tracked(row, github)
    {
      hide Reachable;
      ghost var w := WorldOf(row, github);
      if job.Some? && job.value.phase.Active? { orphans := orphans + {job.value}; }
      job := None;
      cluster.publishers := cluster.publishers - {session};
      if old(Tracked(row, github)) {
        assert Removes(w, WorldOf(row, github));
        Extend(w, WorldOf(row, github), false);
      }
    }

    /** The Job goes if a session delete found it by the session's label, whatever it was doing. */
    method SessionDeleted(github: GitHub, ghost row: Option<Row<Publication>>)
      requires session in cluster.publishers ==> job.Some?
      modifies `job, `orphans, cluster`publishers, github`remotes
      ensures Listed() && cluster.publishers == old(cluster.publishers)
      ensures if session in cluster.publishers then SameJob(old(job), job) else job.None?
      ensures old(Tracked(row, github)) ==> Tracked(row, github)
      ensures !github.outsiders ==> Onward(old(github.remotes), github.remotes)
    {
      hide Reachable, Onward;
      if session !in cluster.publishers {
        RemoveJob(github, row);
        assert cluster.publishers == old(cluster.publishers);
      }
      Tick(github, row);
    }
  }
}
