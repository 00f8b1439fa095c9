/** The publish protocol: a durable publication is carried to a pull request across crashes, lost replies, and retries. */
module Publishing {
  import SessionControl
  import SessionSteps
  import SessionStore
  import SessionTasks
  import opened Prelude
  import opened SessionTypes
  import opened OptimisticRows
  import opened Publications
  import opened PublishSteps
  import opened PublishWorld

  datatype PublishFailure = Invalid | Conflicting | Failing

  datatype Metadata = Metadata(title: string, body: string)

  datatype PublishResult = PublishResult(pull: Option<Pull>, branch: string, commit: string)

  function ResultOf(p: Publication): PublishResult {
    PublishResult(p.pull, p.plan.intent.request.branch, p.commit)
  }

  function Defaulted(asked: PublishRequest, source: PublicationSource): PublishRequest {
    if asked.baseBranch == "" then asked.(baseBranch := source.initialRef) else asked
  }

  /** What a publication was created from: the request, the session's artifact, and what is read in it. */
  datatype Origin = Origin(asked: PublishRequest, source: PublicationSource)

  /** A publication that says what it was created from, with the session's own ref where the request names no base. */
  predicate MadeFrom(plan: Plan, origin: Origin, metadata: RawJson -> Option<Metadata>) {
    var asked, source := origin.asked, origin.source;
    && plan.intent.request.session == asked.session && plan.intent.request.branch == asked.branch
    && plan.intent.request.baseBranch == (if asked.baseBranch == "" then source.initialRef else asked.baseBranch)
    && plan.intent.request.commitMessage == asked.commitMessage && plan.intent.request.draft == asked.draft
    && plan.intent.request.timeout == asked.timeout && plan.intent.repository == source.repository
    && plan.image == source.image && plan.change == source.change
    && metadata(source.pullRequest) == Some(Metadata(plan.title, plan.body)) && !IsBlank(plan.title) && !IsBlank(plan.body)
  }

  /** A pull request that says what the publication says. */
  predicate Presents(o: OpenedPull, plan: Plan) {
    && o.repository == plan.intent.repository && o.head == plan.intent.request.branch && o.base == plan.intent.request.baseBranch
    && o.title == plan.title && o.body == plan.body && o.draft == plan.intent.request.draft
  }

  /** A pull request that presents what a session was asked to be published as, and what its artifact says. */
  predicate PresentsSession(o: OpenedPull, asked: PublishRequest, source: PublicationSource, origin: Origin, metadata: RawJson -> Option<Metadata>) {
    && o.repository == source.repository && o.head == asked.branch && o.draft == asked.draft
    && o.base == (if asked.baseBranch == "" then source.initialRef else asked.baseBranch)
    && metadata(origin.source.pullRequest) == Some(Metadata(o.title, o.body))
  }

  /** A Job that publishes what a session was asked to be published as, with the change that its artifact names. */
  predicate CarriesSession(q: PublisherRequest, asked: PublishRequest, source: PublicationSource, origin: Origin) {
    && q.session == asked.session && q.repository == source.repository && q.branch == asked.branch && q.message == asked.commitMessage
    && q.base == (if asked.baseBranch == "" then source.initialRef else asked.baseBranch) && q.timeout == asked.timeout
    && q.image == origin.source.image && q.change == origin.source.change
  }

  /**
   * Whatever was opened and whatever Job was created in between presents and carries the session as it was asked for, with
   * title, body, image, and change from the artifact that the publication was created from.
   */
  ghost predicate Faithful(pulls0: seq<OpenedPull>, pulls1: seq<OpenedPull>, handed0: seq<PublisherRequest>, handed1: seq<PublisherRequest>,
                           asked: PublishRequest, source: PublicationSource, origin: Option<Origin>, metadata: RawJson -> Option<Metadata>) {
    && pulls0 <= pulls1 && handed0 <= handed1
    && (forall i | |pulls0| <= i < |pulls1| :: origin.Some? && PresentsSession(pulls1[i], asked, source, origin.value, metadata))
    && (forall i | |handed0| <= i < |handed1| :: origin.Some? && CarriesSession(handed1[i], asked, source, origin.value))
  }

  /** Whatever was opened and whatever Job was created in between is this publication's. */
  ghost predicate OfPlan(pulls0: seq<OpenedPull>, pulls1: seq<OpenedPull>, handed0: seq<PublisherRequest>, handed1: seq<PublisherRequest>, plan: Plan) {
    && pulls0 <= pulls1 && handed0 <= handed1
    && (forall i | |pulls0| <= i < |pulls1| :: Presents(pulls1[i], plan))
    && (forall i | |handed0| <= i < |handed1| :: HandsOver(handed1[i], plan))
  }

  lemma NothingDone(pulls: seq<OpenedPull>, handed: seq<PublisherRequest>, asked: PublishRequest, source: PublicationSource,
                    metadata: RawJson -> Option<Metadata>)
    ensures forall origin :: Faithful(pulls, pulls, handed, handed, asked, source, origin, metadata)
    ensures forall plan :: OfPlan(pulls, pulls, handed, handed, plan)
  {}

  lemma PlanIsFaithful(pulls0: seq<OpenedPull>, pulls1: seq<OpenedPull>, handed0: seq<PublisherRequest>, handed1: seq<PublisherRequest>,
                       plan: Plan, asked: PublishRequest, source: PublicationSource, scope: string, origin: Origin,
                       metadata: RawJson -> Option<Metadata>)
    requires OfPlan(pulls0, pulls1, handed0, handed1, plan) && MadeFrom(plan, origin, metadata)
    requires plan.intent == PublishIntent(Defaulted(asked, source), scope, source.repository)
    ensures Faithful(pulls0, pulls1, handed0, handed1, asked, source, Some(origin), metadata)
  {}

  /** Exactly when a result has no commit: an open pull request was found first, or the row was completed so before. */
  predicate Uncommitted(before: Option<Row<Publication>>, found: Option<Pull>) {
    if before.Some? && before.value.value.state.Completed? then before.value.value.commit == ""
    else found.Some? && (before.Some? ==> before.value.value.commit == "")
  }

  predicate Underway(p: Publication) {
    p.state.Ready? || p.state.BranchPublished? || p.state.PullRequestCreated?
  }

  /** The ready publication with its branch published at a commit. */
  predicate BranchRecorded(a: Publication, b: Publication) {
    b == a.(state := BranchPublished, commit := b.commit, updatedAt := b.updatedAt) && IsCommit(b.commit)
  }

  /** What handling a failed Job may do to the row: nothing, or what the branch says. */
  predicate RecoveredAs(held: Row<Publication>, now: Row<Publication>, decided: Recovery) {
    || now == held
    || (now.version == held.version + 1 && match decided
        case Retry => false
        case Record(commit) => BranchRecorded(held.value, now.value) && now.value.commit == commit
        case GiveUp => now.value == held.value.(state := Conflicted, failure := now.value.failure, updatedAt := now.value.updatedAt))
  }

  /** What a session must be to be published: persistent, not being deleted, its latest task completed. */
  predicate Publishable(sessions: SessionStore.Sessions, tasks: SessionStore.Tasks, name: string) {
    && name in sessions && name in tasks && |tasks[name]| > 0
    && sessions[name].definition.storage.Persistent? && sessions[name].deletion.None?
    && tasks[name][|tasks[name]| - 1].state.TaskCompleted?
  }

  class Control {
    const sessions: SessionControl.Control
    const rows: PublicationRepository
    const runtime: Publisher
    const github: GitHub
    /** The title and body in a pull request artifact that decodes. */
    const metadata: RawJson -> Option<Metadata>
    /** Whether a repository names one on GitHub. */
    const parses: string -> bool

    /** What the publication in the row was created from. */
    ghost var origin: Option<Origin>

    /** One server, and nobody else on GitHub. */
    predicate Undisturbed() {
      rows.alone && !github.outsiders
    }

    ghost function WorldNow(): World
      reads this, rows, runtime, github
    {
      runtime.WorldOf(rows.row, github)
    }

    ghost predicate Valid()
      reads this, rows, runtime, runtime.cluster, github
    {
      && rows.Valid() && runtime.Listed()
      && Seen(rows.history, github.seenFree) && Created(rows.history, origin, metadata)
      && (Undisturbed() ==> Reachable(WorldNow(), false))
    }

    /** The sessions are in good order too, and the row refers to one of them. */
    ghost predicate Whole()
      reads this, rows, runtime, runtime.cluster, github, sessions, sessions.rows, sessions.runtime
    {
      && Valid() && sessions.Valid() && Joined()
      && (rows.row.Some? ==> rows.session in sessions.rows.sessions)
    }

    /** Sessions and publisher live in one cluster, and the publisher is that of the row's session. */
    predicate Joined() {
      runtime.cluster == sessions.runtime && runtime.session == rows.session
    }

    constructor (sessions: SessionControl.Control, rows: PublicationRepository, runtime: Publisher, github: GitHub,
                 metadata: RawJson -> Option<Metadata>, parses: string -> bool)
      requires rows.Valid() && rows.row == None && github.remotes == map[] && github.seenFree == {}
      requires runtime.job == None && runtime.orphans == {} && runtime.made == {} && runtime.Listed()
      requires sessions.Valid() && runtime.cluster == sessions.runtime && runtime.session == rows.session
      ensures Whole() && this.sessions == sessions && this.rows == rows && this.runtime == runtime && this.github == github
    {
      this.sessions, this.rows, this.runtime, this.github := sessions, rows, runtime, github;
      this.metadata, this.parses, origin := metadata, parses, None;
      StartIsReachable(false);
    }

    /** The held value is what the row had at its version, and still has when this is the only server. */
    ghost predicate Holds(held: Row<Publication>)
      reads rows
    {
      rows.Held(held) && (rows.alone ==> rows.row == Some(held))
    }

    /** The target's state on GitHub. */
    ghost function RemoteOf(held: Row<Publication>): Remote
      reads this, github
    {
      At(github.remotes, TargetOf(held.value.plan))
    }

    /** Creates the publication, or loads the one that has the same intent. */
    method CreateOrLoad(p: Publication, ghost from: Origin) returns (r: Result<Row<Publication>, PublishFailure>)
      requires Valid() && Initial(p) && MadeFrom(p.plan, from, metadata)
      modifies rows, `origin
      ensures Valid() && old(rows.history) <= rows.history
      ensures origin == if old(rows.history) == [] && rows.history != [] then Some(from) else old(origin)
      ensures r.Success? ==> Holds(r.value) && r.value.value.plan.intent == p.plan.intent
      ensures r == Failure(Conflicting) ==> rows.row.Some? && rows.row.value.value.plan.intent != p.plan.intent
      ensures rows.alone && old(rows.row).Some? ==> rows.row == old(rows.row)
      ensures rows.alone && old(rows.row).None? ==> rows.row.None? || rows.row == Some(Row(p, 1))
      ensures r.Failure? ==> r.error != Invalid
    {
      hide Reachable;
      ghost var w := WorldNow();
      var created := rows.Create(p, github);
      if old(rows.history) == [] && rows.history != [] { origin := Some(from); }
      if Undisturbed() && rows.row != old(rows.row) {
        assert Creates(w, WorldNow());
        Extend(w, WorldNow(), false);
      }
      if created.Success? { return Success(created.value); }
      if created.error != Conflict { return Failure(Failing); }
      var existing := rows.Get(github);
      if existing.Failure? { return Failure(Failing); }
      if existing.value.value.plan.intent != p.plan.intent { return Failure(Conflicting); }
      r := Success(existing.value);
    }

    /** Saves a move forward of the held publication; undisturbed, one that is due. */
    method Save(held: Row<Publication>, next: Publication) returns (r: Option<Row<Publication>>)
      requires Valid() && Holds(held) && Forward(held.value, next)
      requires next.state.Ready? ==> TargetOf(next.plan) in github.seenFree
      requires Undisturbed() ==> Due(WorldNow(), held.value, next)
      modifies rows
      ensures Valid() && old(rows.history) <= rows.history
      ensures r.Some? ==> Holds(r.value) && r.value == Row(next, held.version + 1) && rows.row == r
      ensures rows.alone ==> rows.row == Some(held) || rows.row == Some(Row(next, held.version + 1))
    {
      hide Reachable, Due, Forward;
      ghost var w := WorldNow();
      var updated := rows.Update(held, next, github);
      if Undisturbed() && rows.row != old(rows.row) {
        assert Saves(w, WorldNow(), next);
        assert Advances(w, WorldNow());
        Extend(w, WorldNow(), false);
      }
      r := if updated.Success? then Some(updated.value) else None;
    }

    /**
     * Confirms that neither a pull request nor the branch exists yet; otherwise the publication is conflicted. Undisturbed
     * and when no call fails that happens exactly when the branch is there, with or without its pull request.
     */
    method EstablishOwnership(held: Row<Publication>) returns (r: Result<Row<Publication>, PublishFailure>)
      requires Valid() && Holds(held) && held.value.state.Pending?
      modifies rows, runtime`job, runtime`orphans, github`remotes, github`seenFree, github`answers
      ensures Valid() && old(rows.history) <= rows.history && old(github.answers) <= github.answers
      ensures r.Success? ==> Holds(r.value) && r.value.value == held.value.(state := Ready, updatedAt := r.value.value.updatedAt)
      ensures r.Failure? ==> r.error == Failing || r.error == Conflicting
      ensures r == Failure(Conflicting) ==> rows.row.Some? && rows.row.value.value.state.Conflicted?
      ensures rows.alone ==> rows.row.Some? && rows.row.value.value.plan == held.value.plan
      ensures Undisturbed() && r != Failure(Failing) ==> (r == Failure(Conflicting) <==> old(RemoteOf(held)).branch.Some?)
      ensures Undisturbed() && rows.row != old(rows.row) ==>
                if old(RemoteOf(held)).branch.Some? then rows.row.value.value.state.Conflicted? else rows.row.value.value.state.Ready?
    {
      hide Reachable, RowStored, Onward;
      var t := TargetOf(held.value.plan);
      ghost var w := WorldNow();
      if Undisturbed() { BranchMeansTaken(w); }
      var free := github.CheckFree(t);
      if free.None? { return Failure(Failing); }
      var now: int := *;
      if !free.value {
        var conflicted := Save(held, held.value.(state := Conflicted, failure := "existed before publish ownership was established", updatedAt := now));
        return Failure(if conflicted.Some? then Conflicting else Failing);
      }
      if Undisturbed() {
        assert Checks(w, WorldNow());
        Extend(w, WorldNow(), false);
      }
      runtime.Tick(github, rows.row);
      var saved := Save(held, held.value.(state := Ready, updatedAt := now));
      r := if saved.Some? then Success(saved.value) else Failure(Failing);
    }

    /** Records that the branch is published at the commit of the Job that ended. */
    method RecordBranch(held: Row<Publication>, commit: string) returns (r: Result<Row<Publication>, PublishFailure>)
      requires Valid() && Holds(held) && held.value.state.Ready? && IsCommit(commit)
      requires runtime.job.Some? && !runtime.job.value.phase.Active? && runtime.job.value.commit == commit
      requires Undisturbed() ==> RemoteOf(held).branch == Some(commit)
      modifies rows
      ensures Valid() && old(rows.history) <= rows.history
      ensures r.Success? ==> Holds(r.value) && BranchRecorded(held.value, r.value.value) && r.value.value.commit == commit
      ensures rows.alone ==> rows.row.Some? && RecoveredAs(held, rows.row.value, Record(commit))
      ensures r.Failure? ==> r.error.Failing?
    {
      hide Reachable, RowStored, Seen;
      var now: int := *;
      var next := held.value.(commit := commit, state := BranchPublished, updatedAt := now);
      var saved := Save(held, next);
      r := if saved.Some? then Success(saved.value) else Failure(Failing);
    }

    /** Gives a ready publication up because its branch is not at what its failed Job reported. */
    method GiveUp(held: Row<Publication>, ghost reported: Option<Report>) returns (failure: PublishFailure)
      requires Valid() && Holds(held) && held.value.state.Ready?
      requires runtime.job.Some? && runtime.job.value.phase.Failed?
      requires reported.Some? ==> reported.value == ReportOf(runtime.job.value)
      requires Undisturbed() ==> RecoveryOf(RemoteOf(held).branch, reported, TargetOf(held.value.plan).branch).GiveUp?
      modifies rows, runtime`job, runtime`orphans, runtime.cluster`publishers, github`remotes
      ensures runtime.OthersListed()
      ensures Valid() && old(rows.history) <= rows.history
      ensures Undisturbed() ==> Onward(old(github.remotes), github.remotes)
      ensures rows.alone ==> rows.row.Some? && RecoveredAs(held, rows.row.value, Recovery.GiveUp)
      ensures failure == Conflicting ==> rows.row.Some? && rows.row.value.value.state.Conflicted?
      ensures failure != Invalid
    {
      hide Reachable, RowStored, Seen, Created, Onward, RecoveryOf;
      OnwardReflexive(github.remotes);
      var now: int := *;
      var next := held.value.(state := Conflicted, failure := "changed while the publisher execution was running", updatedAt := now);
      var saved := Save(held, next);
      if saved.None? { return Failing; }
      var ok := RemovePublisher();
      failure := Conflicting;
    }

    /** Runs the publisher for a publication that is durably ready, and records the branch it published. */
    method PublishBranch(held: Row<Publication>) returns (r: Result<Row<Publication>, PublishFailure>)
      requires Valid() && Holds(held) && held.value.state.Ready?
      modifies rows, runtime, runtime.cluster`publishers, github`remotes
      ensures runtime.OthersListed()
      ensures Valid() && old(rows.history) <= rows.history
      ensures Undisturbed() ==> Onward(old(github.remotes), github.remotes)
      ensures r.Success? ==> Holds(r.value) && BranchRecorded(held.value, r.value.value)
      ensures rows.alone ==> rows.row.Some? && rows.row.value.value.plan == held.value.plan
      ensures r == Failure(Conflicting) ==> rows.row.Some? && rows.row.value.value.state.Conflicted?
      ensures r.Failure? ==> r.error != Invalid
      ensures old(runtime.handed) <= runtime.handed
      ensures forall i | |old(runtime.handed)| <= i < |runtime.handed| :: HandsOver(runtime.handed[i], held.value.plan)
    {
      hide Reachable, RowStored, Seen, Created, Onward, RecoveryOf;
      ghost var a := github.remotes;
      ReadyWasSeen(rows.history, held.version - 1, github.seenFree);
      var plan := held.value.plan;
      var request := PublisherRequest(plan.intent.request.session, plan.intent, plan.image, plan.intent.repository,
                                      plan.intent.request.baseBranch, plan.intent.request.branch, plan.intent.request.commitMessage,
                                      plan.change, plan.intent.request.timeout);
      var outcome := runtime.RunPublisher(request, github, rows, plan);
      ghost var b := github.remotes;
      match outcome
      case NoResult => r := Failure(Failing);
      case ExecutionFailed(reported) =>
        ghost var read;
        r, read := RecoverFailedPublisher(held, reported);
        if Undisturbed() { OnwardTransitive(a, b, github.remotes); }
      case Published(report) =>
        if report.branch != held.value.plan.intent.request.branch || !IsCommit(report.commit) { return Failure(Failing); }
        if Undisturbed() { CompleteAtBranch(WorldNow()); }
        r := RecordBranch(held, report.commit);
    }

    /**
     * A failed Job may still have pushed: the branch, as it is read, decides. When no call fails the publication
     * conflicts exactly when the branch is there and not at a commit that the Job is known to have reported.
     */
    method RecoverFailedPublisher(held: Row<Publication>, reported: Option<Report>)
      returns (r: Result<Row<Publication>, PublishFailure>, ghost read: Option<string>)
      requires Valid() && Holds(held) && held.value.state.Ready?
      requires runtime.job.Some? && runtime.job.value.phase.Failed?
      requires reported.Some? ==> reported.value == ReportOf(runtime.job.value)
      modifies rows, runtime`job, runtime`orphans, runtime.cluster`publishers, github`remotes
      ensures runtime.OthersListed()
      ensures Valid() && old(rows.history) <= rows.history
      ensures Undisturbed() ==> Onward(old(github.remotes), github.remotes) && read == old(RemoteOf(held)).branch
      ensures var decided := RecoveryOf(read, reported, held.value.plan.intent.request.branch);
              && (r != Failure(Failing) ==> (r == Failure(Conflicting) <==> decided.GiveUp?))
              && (rows.alone ==> rows.row.Some? && RecoveredAs(held, rows.row.value, decided))
      ensures Undisturbed() && r != Failure(Failing) && IsCommit(old(runtime.job).value.commit) ==>
                (r == Failure(Conflicting) <==>
                   old(RemoteOf(held)).branch.Some? && (reported.None? || old(RemoteOf(held)).branch.value != old(runtime.job).value.commit))
      ensures r.Success? ==> Holds(r.value) && BranchRecorded(held.value, r.value.value)
      ensures r == Failure(Conflicting) ==> rows.row.Some? && rows.row.value.value.state.Conflicted?
      ensures r.Failure? ==> r.error != Invalid
    {
      hide Reachable, RowStored, Seen, Created, Onward;
      OnwardReflexive(github.remotes);
      if Undisturbed() && IsCommit(runtime.job.value.commit) { GivesUpExactly(WorldNow(), reported); }
      read := RemoteOf(held).branch;
      var remote := github.BranchCommit(TargetOf(held.value.plan));
      if remote.None? { return Failure(Failing), read; }
      read := remote.value;
      if remote.value.None? {
        var ok := RemovePublisher();
        return Failure(Failing), read;
      }
      if reported.Some? && reported.value.branch == held.value.plan.intent.request.branch
         && IsCommit(reported.value.commit) && remote.value.value == reported.value.commit {
        r := RecordBranch(held, reported.value.commit);
        return;
      }
      var failure := GiveUp(held, reported);
      r := Failure(failure);
    }

    /** Removes the publisher Job. */
    method RemovePublisher() returns (ok: bool)
      requires Valid()
      modifies runtime`job, runtime`orphans, runtime.cluster`publishers, github`remotes
      ensures runtime.OthersListed()
      ensures Valid() && (ok ==> runtime.job.None?)
      ensures Undisturbed() ==> Onward(old(github.remotes), github.remotes)
    {
      ok := runtime.DeletePublisher(github, rows.row);
    }

    /** Records the pull request and finishes. */
    method Adopt(held: Row<Publication>, pull: Pull) returns (r: Result<PublishResult, PublishFailure>)
      requires Valid() && Holds(held) && Underway(held.value)
      requires Undisturbed() ==> RemoteOf(held).pull == Some(pull)
      modifies rows, runtime`job, runtime`orphans, runtime.cluster`publishers, github`remotes
      ensures runtime.OthersListed()
      ensures Valid() && old(rows.history) <= rows.history
      ensures r.Success? ==> Finished(held.value.plan, r.value)
      ensures r.Success? ==> r.value.pull == Some(pull) && r.value.commit == held.value.commit
      ensures r.Failure? ==> r.error.Failing?
    {
      hide Reachable, RowStored, Seen;
      var now: int := *;
      var next := held.value.(pull := Some(pull), state := PullRequestCreated, updatedAt := now);
      var saved := Save(held, next);
      if saved.None? { return Failure(Failing); }
      r := Finish(saved.value);
    }

    /** Removes the publisher Job of a publication with a pull request, and completes it. */
    method Finish(held: Row<Publication>) returns (r: Result<PublishResult, PublishFailure>)
      requires Valid() && Holds(held) && held.value.state.PullRequestCreated?
      modifies rows, runtime`job, runtime`orphans, runtime.cluster`publishers, github`remotes
      ensures runtime.OthersListed()
      ensures Valid() && old(rows.history) <= rows.history
      ensures r.Success? ==> Finished(held.value.plan, r.value) && r.value == ResultOf(held.value)
      ensures r.Failure? ==> r.error.Failing?
    {
      hide Reachable, RowStored, Seen;
      var ok := RemovePublisher();
      if !ok { return Failure(Failing); }
      var now: int := *;
      var saved := Save(held, held.value.(state := Completed, updatedAt := now));
      if saved.None? { return Failure(Failing); }
      r := Success(ResultOf(saved.value.value));
    }

    /** The row is completed with this result. */
    ghost predicate Finished(plan: Plan, result: PublishResult)
      reads rows
    {
      && rows.row.Some? && rows.row.value.value.plan == plan && rows.row.value.value.state.Completed?
      && result == ResultOf(rows.row.value.value)
    }

    /** Opens the pull request once the branch is seen at the recorded commit; after an error one that appeared is taken. */
    method OpenPullRequest(held: Row<Publication>) returns (r: Option<Pull>)
      requires Valid() && Holds(held) && (held.value.state.BranchPublished? || held.value.state.PullRequestCreated?)
      requires Undisturbed() ==> RemoteOf(held).pull.None?
      modifies github`remotes, github`seenAt, github`answers, github`pulls
      ensures Valid() && (r.Some? ==> held.value.commit != "") && old(github.answers) <= github.answers
      ensures Undisturbed() && r.Some? ==> RemoteOf(held).pull == r
      ensures old(github.pulls) <= github.pulls && |github.pulls| <= |old(github.pulls)| + 1
      ensures forall i | |old(github.pulls)| <= i < |github.pulls| :: Presents(github.pulls[i], held.value.plan)
      ensures Undisturbed() && r.Some? ==> |github.pulls| == |old(github.pulls)| + 1 && r == Some(github.pulls[|old(github.pulls)|].pull)
    {
      hide Reachable, RowStored, Seen, Created, Forward;
      var t := TargetOf(held.value.plan);
      var there := github.WaitForBranchCommit(t, held.value.commit);
      if !there { return None; }
      RecordedCommit(rows.row, rows.history, held);
      var plan := held.value.plan;
      ghost var w := WorldNow();
      r := github.CreatePullRequest(t, plan.title, plan.body, plan.intent.request.draft, rows, held.value.commit);
      if Undisturbed() && github.remotes != w.remotes {
        assert Opens(w, WorldNow()) by { OpenedRemote(w, WorldNow(), t); }
        Extend(w, WorldNow(), false);
      }
      if r.None? {
        var existing := github.WaitForOpenPullRequest(t);
        if existing.Some? { r := existing.value; }
      }
    }

    /**
     * Publishes a prepared session, or goes on with its publication after a crash, a lost reply, or an earlier call.
     * Whatever fails, the row only moves forward. A conflict is durable: another intent, or a publication given up.
     * It completes without a commit exactly when an open pull request was found before a branch was recorded.
     */
    method PublishPrepared(asked: PublishRequest, source: PublicationSource)
      returns (r: Result<PublishResult, PublishFailure>, ghost found: Option<Pull>)
      requires Valid() && ValidRequest(asked)
      modifies rows, runtime, runtime.cluster`publishers, github, `origin
      ensures Faithful(old(github.pulls), github.pulls, old(runtime.handed), runtime.handed, asked, source, origin, metadata)
      ensures origin == if old(rows.history) == [] && rows.history != [] then Some(Origin(asked, source)) else old(origin)
      ensures runtime.OthersListed()
      ensures Valid() && old(rows.history) <= rows.history
      ensures r.Failure? ==> r.error != Invalid
      ensures r.Success? ==> Answers(asked, source, r.value)
      ensures r == Failure(Conflicting) ==> Conflicts(asked, source)
      ensures rows.alone && r.Success? ==> (r.value.commit == "" <==> Uncommitted(old(rows.row), found))
      ensures r.Success? && (found.Some? || (rows.alone && !(old(rows.row).Some? && old(rows.row).value.value.state.Completed?))) ==>
                && Answered(old(github.answers), github.answers, TargetOf(rows.row.value.value.plan), found)
                && (found.Some? ==> r.value.pull == found)
      ensures Undisturbed() && r.Success? ==> r.value.commit != ""
    {
      hide Reachable, RowStored, Seen, Created, Forward, Answered, OfPlan, Faithful;
      NothingDone(github.pulls, runtime.handed, asked, source, metadata);
      found := None;
      var request := asked;
      if request.baseBranch == "" { request := request.(baseBranch := source.initialRef); }
      if !parses(source.repository) { return Failure(Failing), found; }
      var title := metadata(source.pullRequest);
      if title.None? || IsBlank(title.value.title) || IsBlank(title.value.body) { return Failure(Failing), found; }

      var now: int := *;
      var plan := Plan(PublishIntent(request, runtime.cluster.scope, source.repository), source.image, title.value.title, title.value.body,
                       source.change, now);
      var loaded := CreateOrLoad(Publication(plan, Pending, "", None, "", now), Origin(asked, source));
      if loaded.Failure? { return Failure(loaded.error), found; }
      var held := loaded.value;
      if held.value.state.Completed? {
        StillFinal(rows.row, rows.history, held);
        if Undisturbed() { CompletedHasCommit(); }
        return Success(ResultOf(held.value)), found;
      }
      if held.value.state.Conflicted? {
        StillFinal(rows.row, rows.history, held);
        var ok := RemovePublisher();
        return Failure(if ok then Conflicting else Failing), found;
      }
      CreatedPlan(rows.row, rows.history, origin, metadata, held);
      r, found := Resume(held);
      PlanIsFaithful(old(github.pulls), github.pulls, old(runtime.handed), runtime.handed, held.value.plan, asked, source,
                     runtime.cluster.scope, origin.value, metadata);
    }

    /** Carries a publication that is not final yet as far as it goes. */
    method Resume(loaded: Row<Publication>) returns (r: Result<PublishResult, PublishFailure>, ghost found: Option<Pull>)
      requires Valid() && Holds(loaded) && !loaded.value.state.Final()
      modifies rows, runtime, runtime.cluster`publishers, github
      ensures runtime.OthersListed()
      ensures OfPlan(old(github.pulls), github.pulls, old(runtime.handed), runtime.handed, loaded.value.plan)
      ensures Valid() && old(rows.history) <= rows.history
      ensures r.Success? ==> Finished(loaded.value.plan, r.value)
      ensures r.Success? ==> (r.value.commit == "" <==> found.Some? && loaded.value.commit == "")
      ensures r.Success? && found.Some? ==> r.value.pull == found
      ensures r.Success? ==> Answered(old(github.answers), github.answers, TargetOf(loaded.value.plan), found)
      ensures r.Success? && Undisturbed() ==> r.value.commit != ""
      ensures r == Failure(Conflicting) ==> rows.row.Some? && rows.row.value.value.state.Conflicted?
      ensures r.Failure? ==> r.error != Invalid
    {
      hide Reachable, RowStored, Seen, Created, Forward, Answered, OfPlan;
      NothingDone(github.pulls, runtime.handed, loaded.value.plan.intent.request, PublicationSource("", "", "", "", None), metadata);
      found := None;
      var credential: bool := *;
      if !credential { return Failure(Failing), found; }
      var held := loaded;
      if held.value.state.Pending? {
        var owned := EstablishOwnership(held);
        if owned.Failure? { return Failure(owned.error), found; }
        held := owned.value;
      }
      ghost var answers := github.answers;
      r, found := GoOn(held);
      if r.Success? {
        StillAnswered(old(github.answers), answers, github.answers, github.answers, TargetOf(loaded.value.plan), found);
      }
    }

    /** Adopts an open pull request of a publication that is underway, or publishes its branch and opens one. */
    method GoOn(owned: Row<Publication>) returns (r: Result<PublishResult, PublishFailure>, ghost found: Option<Pull>)
      requires Valid() && Holds(owned) && Underway(owned.value)
      modifies rows, runtime, runtime.cluster`publishers, github
      ensures runtime.OthersListed()
      ensures OfPlan(old(github.pulls), github.pulls, old(runtime.handed), runtime.handed, owned.value.plan)
      ensures Valid() && old(rows.history) <= rows.history
      ensures r.Success? ==> Finished(owned.value.plan, r.value)
      ensures r.Success? ==> (r.value.commit == "" <==> found.Some? && owned.value.commit == "")
      ensures r.Success? && found.Some? ==> r.value.pull == found
      ensures r.Success? ==> Answered(old(github.answers), github.answers, TargetOf(owned.value.plan), found)
      ensures r.Success? && Undisturbed() ==> r.value.commit != ""
      ensures old(github.answers) <= github.answers
      ensures r == Failure(Conflicting) ==> rows.row.Some? && rows.row.value.value.state.Conflicted?
      ensures r.Failure? ==> r.error != Invalid
    {
      hide Reachable, RowStored, Seen, Created, Forward, Answered, Onward;
      found := None;
      var held := owned;
      var t := TargetOf(held.value.plan);
      var open := github.FindOpenPullRequest(t);
      if open.None? { return Failure(Failing), found; }
      found := open.value;
      ghost var answers := github.answers;
      if open.value.Some? {
        r := Adopt(held, open.value.value);
        if r.Success? && Undisturbed() { CompletedHasCommit(); }
        return;
      }
      if held.value.state.Ready? {
        ghost var before := github.remotes;
        var published := PublishBranch(held);
        if published.Failure? { return Failure(published.error), found; }
        held := published.value;
        if Undisturbed() { OnwardPull(before, github.remotes, t); }
      }
      var pull := OpenPullRequest(held);
      if pull.None? { return Failure(Failing), found; }
      StillAnswered(old(github.answers), old(github.answers), answers, github.answers, t, found);
      r := Adopt(held, pull.value);
    }

    // ---- Publishing, and the session interface beside it ----

    /** The session may be published, and this is what it is published from. */
    ghost predicate SourceOf(name: string, source: PublicationSource)
      reads this, sessions, sessions.rows
    {
      && Publishable(sessions.rows.sessions, sessions.rows.tasks, name)
      && var record, tasks := sessions.rows.sessions[name], sessions.rows.tasks[name];
      && source.repository == record.repository && source.initialRef == record.initialRef && source.image == record.image
      && source.pullRequest == tasks[|tasks| - 1].artifacts.pullRequest && source.change == tasks[|tasks| - 1].artifacts.change
    }

    /** The row is completed for what was asked, and the result is what it says. */
    ghost predicate Answers(asked: PublishRequest, source: PublicationSource, result: PublishResult)
      reads this, rows, runtime, runtime.cluster
    {
      && rows.row.Some?
      && var p := rows.row.value.value;
      && p.state.Completed? && p.plan.intent == PublishIntent(Defaulted(asked, source), runtime.cluster.scope, source.repository)
      && result.branch == asked.branch && result.pull == p.pull && result.commit == p.commit
    }

    /** The row was given up, or is about something else than what was asked. */
    ghost predicate Conflicts(asked: PublishRequest, source: PublicationSource)
      reads this, rows, runtime, runtime.cluster
    {
      && rows.row.Some?
      && (|| rows.row.value.value.state.Conflicted?
          || rows.row.value.value.plan.intent != PublishIntent(Defaulted(asked, source), runtime.cluster.scope, source.repository))
    }

    /** Publishes a session that may be published. */
    method Publish(asked: PublishRequest) returns (r: Result<PublishResult, PublishFailure>, ghost source: PublicationSource, ghost found: Option<Pull>)
      requires Whole() && asked.session == rows.session
      modifies rows, runtime, runtime.cluster`publishers, github, sessions.rows, `origin
      ensures Faithful(old(github.pulls), github.pulls, old(runtime.handed), runtime.handed, asked, source, origin, metadata)
      ensures old(rows.row).None? && rows.row.Some? ==> origin == Some(Origin(asked, source))
      ensures old(rows.row).Some? ==> origin == old(origin)
      ensures Whole() && old(rows.history) <= rows.history && sessions.rows.sessions == old(sessions.rows.sessions)
      ensures SessionSteps.Works(asked.session, old(sessions.Now()), sessions.Now())
      ensures r == Failure(Invalid) <==> RefusedRequest(asked)
      ensures r.Success? ==> SourceOf(asked.session, source) && Answers(asked, source, r.value)
      ensures r == Failure(Conflicting) ==> Conflicts(asked, source)
      ensures rows.alone && r.Success? ==> (r.value.commit == "" <==> Uncommitted(old(rows.row), found))
      ensures r.Success? && (found.Some? || (rows.alone && !(old(rows.row).Some? && old(rows.row).value.value.state.Completed?))) ==>
                && Answered(old(github.answers), github.answers, TargetOf(rows.row.value.value.plan), found)
                && (found.Some? ==> r.value.pull == found)
      ensures Undisturbed() && r.Success? ==> r.value.commit != ""
    {
      hide Reachable, RowStored, Seen, Created, SessionStore.GoodRows, SessionStore.Backed, SessionStore.Claimed, Answered, SessionSteps.Works,
           PresentsSession, CarriesSession, RefusedRequest, ValidRequest, Defaulted;
      SessionSteps.NoCall(asked.session, sessions.Now());
      NoRowNoHistory(rows.row, rows.history);
      RefusedRequestExactly(asked);
      source, found := PublicationSource("", "", "", "", None), None;
      if !ValidRequest(asked) { return Failure(Invalid), source, found; }
      var prepared := sessions.PreparePublication(asked.session);
      if prepared.Failure? { return Failure(Failing), source, found; }
      source := prepared.value;
      SessionControl.HasLatest(asked.session, sessions.rows.sessions, sessions.rows.tasks);
      ghost var before := sessions.Now();
      r, found := PublishPrepared(asked, prepared.value);
      NoRowNoHistory(rows.row, rows.history);
      SessionSteps.PublishCall(before, asked.session, sessions.Now());
      SessionSteps.WorksOn(asked.session, old(sessions.Now()), before, sessions.Now());
    }

    /** What a session operation took away goes from publishing too: the Job, and with the session's record the row. */
    method CatchUp()
      requires rows.Valid() && sessions.Valid() && Joined() && Seen(rows.history, github.seenFree) && Created(rows.history, origin, metadata)
      requires runtime.session in runtime.cluster.publishers ==> runtime.job.Some?
      requires Undisturbed() ==> Reachable(WorldNow(), false)
      modifies rows, runtime, runtime.cluster`publishers, github`remotes, github`seenFree, github`seenAt
      ensures Whole() && runtime.cluster.publishers == old(runtime.cluster.publishers)
      ensures runtime.session !in runtime.cluster.publishers ==> runtime.job.None?
      ensures rows.row == if rows.session in sessions.rows.sessions then old(rows.row) else None
    {
      hide Reachable, RowStored, SessionStore.GoodRows, SessionStore.Backed, SessionStore.Claimed, Onward;
      runtime.SessionDeleted(github, rows.row);
      if rows.session !in sessions.rows.sessions && rows.row.Some? {
        ghost var w := WorldNow();
        rows.Cascade(github);
        if Undisturbed() {
          assert runtime.session !in sessions.rows.sessions.Keys;
          assert Drops(w, WorldNow());
          Extend(w, WorldNow(), false);
        }
      }
    }

    /**
     * Deletes a session. Its publisher Job goes with its other Jobs, whatever it is doing; when its record goes its
     * publication goes with it; and when only compute was deleted it may be published again.
     */
    method DeleteSession(name: string, storage: bool) returns (err: Option<SessionControl.ErrorKind>)
      requires Whole()
      modifies rows, runtime, github`remotes, github`seenFree, github`seenAt, sessions.rows, sessions.runtime
      ensures Whole()
      ensures err == None && name == rows.session ==> runtime.job.None? && (storage ==> rows.row.None?)
      ensures rows.row == if rows.session in sessions.rows.sessions then old(rows.row) else None
      ensures err == None && Publishable(old(sessions.rows.sessions), old(sessions.rows.tasks), name) && !storage ==>
                Publishable(sessions.rows.sessions, sessions.rows.tasks, name)
    {
      hide Reachable, RowStored, Seen, Created, SessionStore.GoodRows, SessionStore.Backed, SessionStore.Claimed;
      err := sessions.Delete(name, storage);
      CatchUp();
    }

    /** Retries the recorded deletions. */
    method ReconcileDeletions() returns (ok: bool)
      requires Whole()
      modifies rows, runtime, github`remotes, github`seenFree, github`seenAt, sessions.rows, sessions.runtime
      ensures Whole()
      ensures rows.row == if rows.session in sessions.rows.sessions then old(rows.row) else None
    {
      hide Reachable, RowStored, Seen, Created, SessionStore.GoodRows, SessionStore.Backed, SessionStore.Claimed, SessionControl.Retries;
      ghost var trail;
      ok, trail := sessions.ReconcileDeletions();
      CatchUp();
    }

    /** Starts a session, perhaps one of a name that was destroyed before. */
    method StartSession(definition: Definition, request: StartRequest) returns (err: Option<SessionControl.ErrorKind>)
      requires Whole()
      modifies sessions.rows, sessions.runtime`jobs, sessions.runtime`claims
      ensures Whole()
    {
      hide Reachable, RowStored, Seen, Created, SessionStore.GoodRows, SessionStore.Backed, SessionStore.Claimed, SessionTasks.ValidStart;
      ghost var s0, t0 := sessions.rows.sessions, sessions.rows.tasks;
      err := sessions.Start(definition, request);
      if rows.session != request.name {
        SessionStore.OtherKept(request.name, s0, t0, sessions.rows.sessions, sessions.rows.tasks, rows.session);
      }
    }

    /** Gives a session another task. */
    method ContinueSession(name: string, prompt: string, timeout: int) returns (r: Result<string, SessionControl.ErrorKind>)
      requires Whole()
      modifies sessions.rows, sessions.runtime`jobs, sessions.runtime`claims
      ensures Whole()
    {
      hide Reachable, RowStored, Seen, Created, SessionStore.GoodRows, SessionStore.Backed, SessionStore.Claimed;
      r := sessions.Continue(name, prompt, timeout);
    }

    /**
     * However long sessions are started, continued, published, deleted, and started again: undisturbed, in every state in
     * between at most one push and one pull request have taken effect for any target.
     */
    method Serve() returns (ghost trail: seq<World>)
      requires Whole()
      modifies rows, runtime, github, sessions.rows, sessions.runtime, `origin
      ensures Whole() && |trail| > 0 && trail[0] == old(WorldNow()) && trail[|trail| - 1] == WorldNow()
      ensures Undisturbed() ==> NeverTwice(trail)
    {
      hide Reachable, RowStored, Seen, Created, SessionStore.GoodRows, SessionStore.Backed, SessionStore.Claimed;
      trail := [WorldNow()];
      if Undisturbed() { NotTwice(WorldNow()); }
      var calls: nat := *;
      while calls > 0
        invariant Whole() && |trail| > 0 && trail[0] == old(WorldNow()) && trail[|trail| - 1] == WorldNow()
        invariant Undisturbed() ==> NeverTwice(trail)
        decreases calls
      {
        calls := calls - 1;
        Call();
        if Undisturbed() { NotTwice(WorldNow()); }
        trail := trail + [WorldNow()];
      }
    }

    /** One arbitrary call. */
    method Call()
      requires Whole()
      modifies rows, runtime, github, sessions.rows, sessions.runtime, `origin
      ensures Whole()
    {
      hide Reachable, RowStored, Seen, Created, SessionStore.GoodRows, SessionStore.Backed, SessionStore.Claimed;
      var call: nat := *;
      var name: string := *;
      match call {
        case 0 =>
          var asked: PublishRequest := *;
          var r, source, found := Publish(asked.(session := rows.session));
        case 1 =>
          var storage: bool := *;
          var err := DeleteSession(name, storage);
        case 2 =>
          var ok := ReconcileDeletions();
        case 3 =>
          var definition: Definition := *;
          var request: StartRequest := *;
          var err := StartSession(definition, request);
        case _ =>
          var prompt: string := *;
          var timeout: int := *;
          var task := ContinueSession(name, prompt, timeout);
      }
    }

    lemma CompletedHasCommit()
      requires Valid() && Undisturbed() && rows.row.Some? && rows.row.value.value.state.Completed?
      ensures rows.row.value.value.commit != ""
    {
      hide Reachable;
      CompletedOnce(WorldNow());
    }
  }

  /** The publication was created from its origin. */
  ghost predicate Created(history: seq<Publication>, origin: Option<Origin>, metadata: RawJson -> Option<Metadata>) {
    history != [] ==> origin.Some? && MadeFrom(history[0].plan, origin.value, metadata)
  }

  lemma CreatedPlan(row: Option<Row<Publication>>, history: seq<Publication>, origin: Option<Origin>, metadata: RawJson -> Option<Metadata>,
                    held: Row<Publication>)
    requires RowStored(row, history) && Created(history, origin, metadata)
    requires 0 < held.version <= |history| && history[held.version - 1] == held.value
    ensures origin.Some? && MadeFrom(held.value.plan, origin.value, metadata)
  {
    NeverGoesBack(history, 0, held.version - 1);
  }

  lemma NoRowNoHistory(row: Option<Row<Publication>>, history: seq<Publication>)
    requires RowStored(row, history)
    ensures row.None? <==> history == []
  {}

  lemma ReadyWasSeen(history: seq<Publication>, i: nat, seenFree: set<Target>)
    requires i < |history| && history[i].state.Ready? && Seen(history, seenFree)
    ensures TargetOf(history[i].plan) in seenFree
  {}

  lemma OnwardPull(a: Remotes, b: Remotes, t: Target)
    requires Onward(a, b)
    ensures At(b, t).pull == At(a, t).pull
  {}

  /** A pull request is only ever open where a branch is. */
  lemma BranchMeansTaken(w: World)
    requires Reachable(w, false) && w.row.Some?
    ensures var r := At(w.remotes, TargetOf(w.row.value.value.plan)); r.pull.Some? ==> r.branch.Some?
  {
    ReachableOnce(w);
    assert OnceAt(At(w.remotes, TargetOf(w.row.value.value.plan)), w.made);
  }

  /** In no state of the trail has anything taken effect twice. */
  ghost predicate NeverTwice(trail: seq<World>) {
    forall i, t | 0 <= i < |trail| :: At(trail[i].remotes, t).pushes <= 1 && At(trail[i].remotes, t).creations <= 1
  }

  lemma NotTwice(w: World)
    requires Reachable(w, false)
    ensures forall t :: At(w.remotes, t).pushes <= 1 && At(w.remotes, t).creations <= 1
  {
    forall t ensures At(w.remotes, t).pushes <= 1 && At(w.remotes, t).creations <= 1 {
      AtMostOnce(w, t);
    }
  }

  /** A complete Job's commit is where the branch is. */
  lemma CompleteAtBranch(w: World)
    requires Reachable(w, false) && w.row.Some? && w.job.Some? && w.job.value.phase.Complete?
    ensures At(w.remotes, TargetOf(w.row.value.value.plan)).branch == Some(w.job.value.commit)
  {
    ReachableOnce(w);
  }

  /** With no pull request open, opening one is a step of a publication whose branch is recorded. */
  lemma OpenedRemote(w: World, v: World, t: Target)
    requires w.row.Some? && t == TargetOf(w.row.value.value.plan)
    requires w.row.value.value.state.BranchPublished? || w.row.value.value.state.PullRequestCreated?
    requires At(w.remotes, t).branch == Some(w.row.value.value.commit) && At(w.remotes, t).pull.None?
    requires v == w.(remotes := v.remotes) && v.remotes != w.remotes && CreatedAtMost(t, w.remotes, v.remotes)
    ensures Opens(w, v)
  {
    var r := At(w.remotes, t);
    assert v.remotes == w.remotes[t := r.(pull := v.remotes[t].pull, creations := r.creations + 1)] by {
      forall u | u != t ensures (u in v.remotes <==> u in w.remotes) && (u in v.remotes ==> v.remotes[u] == w.remotes[u]) {
        assert u in v.remotes <==> u in v.remotes - {t};
        assert u in w.remotes <==> u in w.remotes - {t};
        assert u in v.remotes ==> v.remotes[u] == (v.remotes - {t})[u] == (w.remotes - {t})[u];
      }
    }
    assert v == w.(remotes := w.remotes[t := r.(pull := Some(v.remotes[t].pull.value), creations := r.creations + 1)]);
  }

  /** A commit that a held publication names was recorded when its branch was published. */
  lemma RecordedCommit(row: Option<Row<Publication>>, history: seq<Publication>, held: Row<Publication>)
    requires RowStored(row, history)
    requires 0 < held.version <= |history| && history[held.version - 1] == held.value && held.value.commit != ""
    ensures exists i :: 0 <= i < |history| && history[i].state.BranchPublished? && history[i].commit == held.value.commit
                        && TargetOf(history[i].plan) == TargetOf(held.value.plan)
  {
    var j := held.version - 1;
    CommitMeansBranch(history, j);
    var i :| 0 <= i <= j && history[i].state.BranchPublished?;
    CommitMeansBranch(history, i);
    NeverGoesBack(history, i, j);
  }

  lemma StillFinal(row: Option<Row<Publication>>, history: seq<Publication>, held: Row<Publication>)
    requires RowStored(row, history)
    requires 0 < held.version <= |history| && history[held.version - 1] == held.value && held.value.state.Final()
    ensures row == Some(held)
  {
    NeverGoesBack(history, held.version - 1, |history| - 1);
  }
}
