/** Durable publications: one row for each session, which only ever moves forward. */
module Publications {
  import opened Prelude
  import opened SessionTypes

  datatype PublishRequest = PublishRequest(
    session: string, branch: string, baseBranch: string, commitMessage: string, draft: bool, timeout: int)

  /** The digest input that identifies a publish operation; digests are taken to be injective. */
  datatype PublishIntent = PublishIntent(request: PublishRequest, scope: string, repository: string)

  /** The part of a publication that its creation fixes. */
  datatype Plan = Plan(
    intent: PublishIntent, image: string, title: string, body: string, change: Option<ChangeArtifact>, createdAt: int)

  datatype PublishState = Pending | Ready | BranchPublished | PullRequestCreated | Completed | Conflicted {
    predicate Final() { Completed? || Conflicted? }
  }

  datatype Pull = Pull(number: int, url: string)

  datatype Publication = Publication(plan: Plan, state: PublishState, commit: string, pull: Option<Pull>, failure: string, updatedAt: int)

  /** A branch of a repository and the branch its pull request goes to. */
  datatype Target = Target(repository: string, branch: string, base: string)

  function TargetOf(plan: Plan): Target {
    Target(plan.intent.repository, plan.intent.request.branch, plan.intent.request.baseBranch)
  }

  predicate ValidRequest(r: PublishRequest) {
    && !IsBlank(r.session) && !IsBlank(r.branch) && !IsBlank(r.commitMessage)
    && !IsSpace(r.branch[0]) && !IsSpace(r.branch[|r.branch| - 1])
    && r.timeout >= 1_000_000_000
  }

  /** Which requests are refused before anything is looked at. */
  predicate RefusedRequest(r: PublishRequest) {
    || IsBlank(r.session) || IsBlank(r.branch) || IsBlank(r.commitMessage)
    || IsSpace(r.branch[0]) || IsSpace(r.branch[|r.branch| - 1])
    || r.timeout < 1_000_000_000
  }

  lemma RefusedRequestExactly(r: PublishRequest)
    ensures ValidRequest(r) <==> !RefusedRequest(r)
  {}

  predicate IsCommit(sha: string) {
    IsHex(sha, 40)
  }

  /** A publication as its creation leaves it. */
  predicate Initial(p: Publication) {
    p.state.Pending? && p.commit == "" && p.pull.None?
  }

  /** What one saved change may do. */
  predicate Forward(a: Publication, b: Publication) {
    && b.plan == a.plan
    && match a.state
       case Pending => (b.state.Ready? || b.state.Conflicted?) && b.commit == a.commit && b.pull == a.pull
       case Ready =>
         || (b.state.BranchPublished? && IsCommit(b.commit) && b.pull == a.pull)
         || (b.state.PullRequestCreated? && b.commit == a.commit && b.pull.Some?)
         || (b.state.Conflicted? && b.commit == a.commit && b.pull == a.pull)
       case BranchPublished => b.state.PullRequestCreated? && b.commit == a.commit && b.pull.Some?
       case PullRequestCreated =>
         || (b.state.PullRequestCreated? && b.commit == a.commit && b.pull.Some?)
         || (b.state.Completed? && b.commit == a.commit && b.pull == a.pull)
       case Completed => false
       case Conflicted => false
  }

  /** All the values a publication's row has had. */
  ghost predicate PublicationChain(history: seq<Publication>) {
    && |history| > 0 && Initial(history[0])
    && forall i | 0 <= i < |history| - 1 :: Forward(history[i], history[i + 1])
  }

  function Rank(s: PublishState): nat {
    match s
    case Pending => 0
    case Ready => 1
    case BranchPublished => 2
    case PullRequestCreated => 3
    case Completed => 4
    case Conflicted => 5
  }

  /** A publication never goes back, keeps its intent and contents, and never leaves a final state. */
  lemma {:induction false} NeverGoesBack(history: seq<Publication>, i: nat, j: nat)
    requires PublicationChain(history) && i <= j < |history|
    ensures history[j].plan == history[i].plan
    ensures Rank(history[i].state) <= Rank(history[j].state)
    ensures history[i].state.Final() ==> j == i
    ensures history[i].commit != "" ==> history[j].commit == history[i].commit
    decreases j
  {
    if i < j {
      NeverGoesBack(history, i, j - 1);
      CommitMeansBranch(history, j - 1);
      assert Forward(history[j - 1], history[j]);
    }
  }

  /** Exactly the publications that went through a published branch have a commit. */
  lemma {:induction false} CommitMeansBranch(history: seq<Publication>, j: nat)
    requires PublicationChain(history) && j < |history|
    ensures history[j].commit != "" <==> exists i :: 0 <= i <= j && history[i].state.BranchPublished?
    ensures history[j].commit != "" ==> IsCommit(history[j].commit) && !history[j].state.Pending? && !history[j].state.Ready?
    ensures history[j].state.BranchPublished? ==> history[j].commit != ""
    ensures history[j].state.PullRequestCreated? || history[j].state.Completed? ==> history[j].pull.Some?
  {
    if j > 0 {
      CommitMeansBranch(history, j - 1);
      assert Forward(history[j - 1], history[j]);
      if i :| 0 <= i <= j - 1 && history[i].state.BranchPublished? {
        assert 0 <= i <= j;
      }
      if history[j].state.BranchPublished? { assert 0 <= j <= j && history[j].state.BranchPublished?; }
    }
  }
}
