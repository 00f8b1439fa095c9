# A verified model of the workflow engine

This project models a durable multi-agent workflow engine written in Go and proves what its layers promise each other.
A *workflow definition* is a graph of steps. A *run* of it is one versioned database row that controllers load, advance,
and save under a version check. Each step is carried out by a *session*: rows in SQL and Jobs in a cluster. The change of
a publishable session is *published* as a branch and a pull request on GitHub. Everything may crash or lose a reply at
any point, and everything is retried.

`dafny verify dfyconfig.toml` checks all of it.

## How it is built

| files | what they hold |
|---|---|
| `Prelude`, `SessionTypes` | optional values, text tests, sorted names, the values the layers exchange |
| `Graphs`, `Catalog` | the three-colour cycle check as a class with a recursive `Visit`, and the definition loader with its rules |
| `WorkflowRun`, `Scheduling` | runs and steps as values, what a step's session is asked and what its answer makes of the step, one scheduling pass and its closed form |
| `RunMoves`, `OptimisticRows`, `RunHistory` | the changes a controller may save, rows under a version check for any number of controllers, what every reachable run keeps |
| `Confluence`, `Liveness` | every way a run can end gives the same result; a run never gets stuck and ends within a bound |
| `SessionTasks`, `SessionStore`, `SessionSteps`, `SessionControl` | task histories, the SQL rows and the cluster as nondeterministic classes, the calls an operation may make and what each keeps, the session operations |
| `WorkflowStore`, `Accounting`, `WorkingRuns`, `WorkflowControl` | the run rows as a class, how sessions account for steps, the loops over a working copy, and the controller |
| `RunCreation`, `RunDispatch`, `RunObservation`, `RunEnding`, `RunSaving` | what the controller's loops keep, one module for each: starting a run, dispatching, observing, cleaning up and canceling and deleting, saving |
| `StepSessions` | what a step's session is asked to do, from the workflow's file to the session's row and the text of its prompt |
| `Truth`, `RunsEnd` | what controllers record is what agents did, and how far a durable run is from its end |
| `ServedRuns`, `Serving` | one server: any sequence of calls of the controller and of the session interface, for all runs at once |
| `Layers`, `DnsNames`, `Reports` | the layers agree on outcomes and on names, from the container's report to the step |
| `Publications`, `PublishSteps`, `PublishWorld`, `Publishing` | the publish state machine, publishing as a transition system, its row, publisher Job and GitHub as classes, and the protocol |
| `LockTable`, `LockedSessions` | the reference-counted locks for any number of threads, and the calls that threads make on sessions inside them |
| `Base64`, `TaskArtifacts` | the artifact report and how it is read, with section 4 of RFC 4648 |

The Go code that changes state step by step is written as classes and loops and proved against functions on values. The
functions carry the theory: a saved change of a run is a `Move`, and `Apply` says what it does. `WorkflowRepository`
keeps a ghost history of every value a row has had; its class invariant says that the history is a chain of enabled
moves, so that every theorem about moves holds of what the controller really saves. Map iteration order is an arbitrary
pick from a set. A call that can fail does so nondeterministically, before or after its effect, and a failing call ends
the operation; that covers a crash after any effect. Rules about order are preconditions of the outside world: the
cluster only starts a task that is already recorded and is handed exactly what the rows say, only deletes for a session whose deletion is durably intended and
whose latest task is durably finished, the publisher is handed exactly what the durable publication says and runs only for one that durably became ready after GitHub showed
neither a pull request nor a branch, and a pull request is only opened after the branch was seen at the recorded commit.
Every session operation promises that it is a sequence of guarded calls on its one session (`SessionSteps.Works`), which is
what threads interleave under the locks.

## Assumptions

- Digests (session, run, and publish intents) are injective: an intent is the digest's input itself, or an arbitrary
  function where injectivity is not needed. A step's part of a session name keeps only four digest bytes, so distinct
  session names within one run are an assumption. `RunCreation.Unused` names it, and that nobody has used these names
  before; a run that was created so is *tracked* by `Serving.Service`.
- Nobody but the controller starts, continues, or deletes a session whose name belongs to a run
  (`ServedRuns.Foreign`). Anyone may ask for its status and artifacts and prepare to publish it.
- Agent definitions are as agent loading leaves them (`SessionTasks.ValidAgent`, internal/catalog/agents.go:200-283).
- What agents do is a function of what a session was started to do only where confluence is claimed of the controller:
  `Truth.Truthful` says it of the rows a pass saw, and `Service.truthful` that every pass so far saw such rows.
- `alone` says that a repository has no other controller. Without it other controllers may save any enabled move
  between any two calls. Sessions are then only claimed to stay well formed.
- A run's sessions are dispatched by servers with one image and one runtime scope (`Accounting.Server`): that dispatching a
  step again finds its own session is claimed across restarts only while both stay what they were.
- Tasks of a session have increasing creation times, so the latest task is the last one added.
- For publishing exactly once: one server at a time and nobody else on the branch or the pull request
  (`Undisturbed`), and GitHub reads are consistent. That at most one push takes effect is due to GitHub refusing an
  unforced push onto a branch that is there (container/agent-entrypoint:150-161); that at most one pull request is opened
  is due to the protocol.

## Where the code does less than one may expect

- A publication whose own push succeeded can end conflicted. A failed publisher Job is given up exactly when the branch
  is there and the Job's report is unreadable, or the Job that pushed is gone and this one made another commit
  (`PublishSteps.GivesUpExactly`, `Publishing.Control.RecoverFailedPublisher`). Both happen undisturbed:
  `PublishSteps.LostReportConflicts` loses the report, and in `PublishSteps.RemovedJobConflicts` the session's compute is
  deleted after the push, which removes the publisher Job with the session's other Jobs. One push has then taken effect.
- A publication can also conflict with what its own session pushed before. Undisturbed and when no call fails a pending
  publication conflicts exactly when its branch is there (`PublishSteps.PendingConflictsExactly`,
  `Publishing.Control.EstablishOwnership`). Nobody else having pushed it, this server has: the session was destroyed, the
  publication's row went with it (internal/storage/schema/004_publications.sql:2), and a session of the same name was
  started and published with the same request, as in `PublishSteps.DestroyedSessionConflicts`. One push has taken effect.
- A publication completes without a commit exactly when an open pull request was found before a published branch was
  recorded (`Publishing.Control.Resume`), which undisturbed never happens. `PublishSteps.OutsidePullCompletes` is such an
  execution, with a pull request that someone else opened.
- A publication that is published again after its session was given another task keeps the title, body, image, and change of
  the artifact it was created from (`Publishing.MadeFrom`, `Publishing.Faithful`): its intent does not name them.
- A workflow step fails although its task completed exactly when the outcome's summary or blocker is not a string
  (`Layers.LayersAgree`, `Layers.IllegibleSummaryFails`).
- Applied to a step alone, artifacts leave a new output on a step that fails exactly when a completed outcome reports an
  output but not the change that the step must produce (`WorkflowRun.OutputOnFailureExactly`,
  `WorkflowRun.OutputOnFailedStep`). No accounted session gets there (`Layers.FailedStepsKeepOutput`).
- An unfinished task may go from running back to pending (`SessionTasks.RunningMayBecomePending`).

## Model

| member | source | states |
|---|---|---|
| `Names.LeqByFirstDifference` | internal/workflow/control.go:784-793 | the order in which steps are walked is that of the first differing character, and a prefix comes first |
| `Graphs.CycleCheck.Visit` | internal/catalog/workflows.go:294-312 | visiting a step finishes it after all its dependencies, or names a step that lies on a cycle |
| `Graphs.ValidateGraph` | internal/catalog/workflows.go:279-321 | accepts exactly the closed graphs without cycles, exactly those that have a rank in which every dependency is strictly lower, whatever the map order; an error is true of the graph |
| `Graphs.RankExcludesCycles` | internal/catalog/workflows.go:279-321 | a graph with a rank is closed and has no cycle |
| `Catalog.LoadWorkflowStep` | internal/catalog/workflows.go:229-260 | accepts exactly the valid steps, duplicates in the dependency list included; every field is the file's, every error is true of the file |
| `Catalog.ValidateChangeHandoffs` | internal/catalog/workflows.go:262-277 | accepts exactly when every change source is a direct dependency, and returns exactly the sources |
| `Catalog.CheckStorage` | internal/catalog/workflows.go:201-214 | accepts exactly when publishable steps and sources are persistent and all others ephemeral |
| `Catalog.LoadWorkflowDefinition` | internal/catalog/workflows.go:151-227 | accepts exactly the acceptable files; every field of the definition is the file's, parallelism is 1 when it names none, and each error about the file as a whole is given exactly when it is true; the graph then has a rank |
| `Catalog.HandoffSource` | internal/catalog/workflows.go:192-222 | in an accepted workflow a change comes from a persistent direct dependency that is never the publishable step |
| `WorkflowRun.PromptCarries` | internal/workflow/control.go:704-713 | a step's prompt contains the goal, its own task, and every direct dependency's output under that dependency's name |
| `WorkflowRun.ReportedVerdict` | internal/workflow/control.go:642-692 | exactly which reported outcomes complete or block a step; every other one fails it |
| `WorkflowRun.ReportedResult` | internal/workflow/control.go:642-692 | what a reported outcome records, for failed ones too, and what it leaves as it was |
| `WorkflowRun.OutputOnFailedStep` | internal/workflow/control.go:677-683 | a failed step can be left with an output |
| `WorkflowRun.OutputOnFailureExactly` | internal/workflow/control.go:642-692 | exactly when a step that fails is left with a new output: its change is missing and nothing else is |
| `WorkflowRun.EndedStateMeansTerminalSteps` | internal/workflow/control.go:618-640 | the derived run state is running exactly while some step is not terminal |
| `WorkflowRun.WorstStepDecides` | internal/workflow/control.go:618-640 | a run whose steps have all ended is exactly as bad as its worst step: failed over blocked over canceled over completed |
| `WorkingRuns.WorkingRun.ScheduleReadySteps` | internal/workflow/control.go:568-616 | the loops over the working copy do what the scheduling function says, and report a change exactly when there is one |
| `WorkingRuns.WorkingRun.Dependencies` | internal/workflow/control.go:583-593 | the inner loop finds a dependency that ended badly, or else whether all completed |
| `WorkingRuns.WorkingRun.DeriveRunState` | internal/workflow/control.go:618-640 | the loop derives the run state for every map order, its early return included |
| `Scheduling.PassIsGreedy` | internal/workflow/control.go:568-616 | by induction over the names the pass agrees with its closed form, step by step and in its count of active steps |
| `Scheduling.ScheduleIsGreedy` | internal/workflow/control.go:568-616 | a pass starts exactly the first min(ready, free) ready steps in name order and skips exactly the doomed ones; afterwards the slots are full or nothing is ready |
| `RunMoves.MoveExactly` | internal/workflow/control.go:506-556 | what canceling, cleaning up, and the flags change of a run and of each step, and that they change nothing else |
| `RunMoves.PassExactly` | internal/workflow/control.go:387-616 | what a pass makes of each step by its state and its session's reply: dispatched, failed, ended as reported, started, or skipped, with every other field kept |
| `RunMoves.PassFillsSlots` | internal/workflow/control.go:568-616 | after every pass as many steps are active as the run allows, or every pending step waits for a dependency |
| `RunMoves.MoveKeeps` | internal/workflow/control.go:252-302 | every saved change keeps the parallelism bound, completed dependencies of every dispatched step, recorded results, and what terminal steps recorded |
| `RunMoves.HandoffNeverFails` | internal/workflow/control.go:407-418 | a step that was ever dispatched has a source with a recorded change |
| `RunMoves.RedispatchIsIdempotent` | internal/workflow/control.go:387-435 | after any move a dispatched step would be dispatched with an equal request |
| `OptimisticRows.VersionsLinearize` | internal/storage/queries.sql:16-20 | the version check turns every interleaving and crash into a sequence of changes, each made to the row it replaces |
| `OptimisticRows.ChangesAreExecution` | internal/storage/workflow.go:90-110 | every sequence of changes of a row is what some execution makes of it |
| `RunHistory.EveryRunIsSound` | internal/workflow/control.go:252-302 | every durable run in every interleaving of any number of controllers is sound and keeps its plan |
| `RunHistory.TerminalStepsNeverChange` | internal/workflow/control.go:252-302 | a terminal step keeps its state and result in every history |
| `RunHistory.RequestsNeverChange` | internal/workflow/control.go:704-713 | in every history a dispatched step is asked for the same thing at any later time |
| `Confluence.FinalSkips` | internal/workflow/control.go:568-616 | the final verdict, defined by recursion on the rank, is skipped exactly when a direct dependency does not end completed |
| `Confluence.MoveAgrees` | internal/workflow/control.go:252-302 | a move that observes truthful sessions keeps every ended step at its final verdict |
| `Confluence.EndedStepsAreFinal` | internal/workflow/control.go:252-302 | in every history of an uncanceled run each ended step has its final verdict |
| `Confluence.FinalIsUnique` | internal/workflow/control.go:568-616 | the final verdict depends on neither the parallelism nor the rank |
| `Confluence.Confluent` | internal/workflow/control.go:252-302 | two histories of the same work end every step and the run alike, whatever the parallelism, order, interleaving, and crashes |
| `Confluence.StoredRunsConfluent` | internal/workflow/control.go:252-302 | the same for the values that two rows have had |
| `Confluence.CompletedMeansEveryStep` | internal/workflow/control.go:618-640 | a run ends completed exactly when every step did, although skipped steps are ignored when its state is derived |
| `Liveness.NoDeadlock` | internal/workflow/control.go:568-616 | with no step active and some pending a pass takes at least one step out of the pending state |
| `Liveness.EndsWithinBound` | internal/workflow/control.go:252-302 | a run of n steps has ended after n + 1 reconciles that succeed and find sessions finished |
| `SessionTasks.RefusedExactly` | internal/session/control.go:653-733 | exactly which start requests are refused, said of the request as it comes in, before defaults are filled in |
| `SessionTasks.AskedExactly` | internal/session/control.go:487-499 | a session has the intent that a request makes exactly when its row and its first task hold, field by field, what the request asks, with main and the agent's timeout where it asks nothing |
| `SessionTasks.ObservedIsGood` | internal/session/control.go:547-625 | observing an unfinished task keeps finish times, outcomes, and required artifacts in order |
| `SessionTasks.ObservedVerdict` | internal/session/control.go:547-625 | exactly which observations complete, block, or leave a task unfinished, and what a completed task must not lack |
| `SessionTasks.ObservedRecords` | internal/session/control.go:547-625 | an observed end that can be read, a failed one included, leaves exactly its artifacts in the task; any other leaves the task's own |
| `SessionTasks.RunningMayBecomePending` | internal/session/control.go:549-558 | an observation may move a task from running back to pending |
| `SessionStore.Repository.Create` | internal/storage/session.go:27-69 | inserts a session with its first task, or changes nothing; a lost reply may hide an insert |
| `SessionStore.Repository.AddTask` | internal/storage/session.go:86-117 | adds a task only after a finished one and never a second unfinished one; it is refused as active only when the latest task is unfinished |
| `SessionStore.Repository.UpdateTask` | internal/storage/session.go:134-155 | replaces the latest task by a later state of itself and keeps every finished task |
| `SessionStore.Repository.BeginDeletion` | internal/storage/session.go:158-184 | records a deletion intent unless the opposite one is recorded |
| `SessionStore.Repository.FinishDeletion` | internal/storage/session.go:187-207 | removes the session with its tasks or clears the intent |
| `SessionStore.Runtime.Start` | internal/workload/manifest.go:197-217 | may only be called for a recorded unfinished task, with a Job that is handed exactly what the row and the task say; a persistent session's first task gets its Job only once the claim is there |
| `SessionStore.Runtime.Delete` | internal/workload/session.go:112-159 | may only be called with durable intent and a finished latest task; removes one session's Jobs, the publisher Job that a publication made for it among them, and only with storage its claim |
| `SessionStore.BackedByMovedRows` | internal/storage/session.go:86-155 | rows that only move forward keep every runtime resource backed by a record |
| `SessionSteps.TouchKeeps` | internal/session/control.go:126-417 | each row or runtime call that an operation may make, under the guard it makes it under, leaves its session in good order: tasks and resources recorded, and the claim there from the first Job until the storage may go |
| `SessionSteps.CallKeeps` | internal/session/control.go:126-417 | such a call leaves all rows and resources in good order |
| `SessionSteps.TrailKeeps` | internal/session/control.go:126-417 | wherever an operation stops, rows and resources are in good order |
| `SessionControl.Control.Accept` | internal/session/control.go:138-168 | records a new session before any effect, or finds one with an equal intent and leaves it alone |
| `SessionControl.Control.Launch` | internal/session/control.go:627-644 | the Job of a task is handed the recorded image, repository, ref, agent, prompt, limits, kind, and change |
| `SessionControl.Control.Start` | internal/session/control.go:126-184 | rejects exactly the refused requests; whenever it succeeds the recorded row and first task hold field by field what was asked; it conflicts only with a session that was asked for something else, changes no existing session, and leaves the unfinished task with a Job |
| `SessionControl.Control.SynchronizeLatestTask` | internal/session/control.go:518-545 | leaves a finished task alone and records what an observation makes of any other |
| `SessionControl.Control.Continue` | internal/session/control.go:187-246 | adds exactly one unfinished task, only to a persistent session without unfinished work, recorded before it is started; every id it records is a label of at most 63 characters; it is refused as invalid, conflicting, or missing only for the reasons the source has |
| `SessionControl.Control.Status` | internal/session/control.go:249-268 | the latest task's state; refused as invalid exactly for a blank name, as conflicting only in another runtime scope, as missing only when not recorded |
| `SessionControl.Control.Artifacts` | internal/session/control.go:271-298 | the finished latest task's artifacts; refused as conflicting only in another scope or while the task is unfinished |
| `SessionControl.Control.SettleLatestTask` | internal/session/control.go:387-410 | durably finishes the latest task as it is observed, or else as canceled |
| `SessionControl.Control.FinishDeletion` | internal/session/control.go:387-417 | no Job of the session is left, its publisher Job included; the record is gone, or kept without intent and with a finished task |
| `SessionControl.Control.Delete` | internal/session/control.go:332-368 | as above for a whole deletion; a conflict means the opposite intent was recorded, and changes nothing |
| `SessionControl.Control.ReconcileDeletions` | internal/session/control.go:371-385 | every step retries a recorded deletion, and without an error no deletion intent is left |
| `SessionControl.RetriesMoveRows` | internal/session/control.go:371-385 | retries only move rows forward and add none |
| `SessionControl.Control.PreparePublication` | internal/session/control.go:440-485 | only a persistent session whose latest task completed with a pull request is a source, and it is refused as invalid, conflicting, or missing only for the reasons the source has |
| `WorkflowStore.ChainIsSound` | internal/storage/workflow.go:90-110 | every value a run's row has had is planned and sound |
| `WorkflowStore.WorkflowRepository.Create` | internal/storage/workflow.go:40-87 | inserts a run with its agent definitions, or changes nothing |
| `WorkflowStore.WorkflowRepository.Update` | internal/storage/workflow.go:90-110 | replaces a run only at the offered version, so that the history stays a chain of moves |
| `WorkflowControl.Control.RequestFor` | internal/workflow/control.go:400-424 | builds a request exactly when the step's change source, if any, has a change; it asks for the run's repository and ref, the kind the step owes, the source's session and change, and the framed prompt |
| `WorkflowControl.Control.StartStep` | internal/workflow/control.go:395-428 | a session that appears is the one the request asks for, pending and not being deleted; a request is refused only by a session that does something else, or because it is invalid |
| `WorkflowControl.Control.DispatchStep` | internal/workflow/control.go:387-435 | however often a starting step of an accounted run is dispatched, its own session never refuses it, its request is never invalid, and its change is never missing |
| `WorkflowControl.Control.StartPersistedSteps` | internal/workflow/control.go:387-435 | the loop makes every starting step running once its session is recorded, touching only the run's sessions |
| `WorkflowControl.Control.Ask` | internal/workflow/control.go:469-494 | the answer is what the session's latest task says |
| `WorkflowControl.Control.ObserveRunningSteps` | internal/workflow/control.go:461-504 | the loop applies to every running step what its session says: a finished latest task's result, or that it is unfinished |
| `WorkflowControl.Control.Progress` | internal/workflow/control.go:273-291 | dispatching, observing, scheduling, and deriving make the working copy one enabled move further |
| `WorkflowControl.Control.CleanupCompletedSteps` | internal/workflow/control.go:532-556 | saves the cleanup only after no Job is left of any step that is completed, not publishable, and not yet cleaned up |
| `WorkflowControl.Control.ReconcileCancellation` | internal/workflow/control.go:506-530 | ends a canceled run only after no active step's session has unfinished work or Jobs |
| `WorkflowControl.Control.Save` | internal/workflow/control.go:771-778 | saves the copy as one named move of the value it was loaded with, or nothing; alone it never loses a race |
| `WorkflowControl.Control.SavePass` | internal/workflow/control.go:289-301 | saves a pass and then a cleanup; a lost race starts the cleanup of what was just started |
| `WorkflowControl.Control.Advance` | internal/workflow/control.go:273-301 | one pass saved with its cleanup: every reply it recorded is what the accounted session said at one moment of the pass; alone, no session refuses |
| `WorkflowControl.Control.Reconcile` | internal/workflow/control.go:252-302 | saves at most its own pass and a cleanup, or a completed cancellation, whatever fails; every recorded reply is what the step's session said; alone and without an error exactly what the run's state asks for; an accounted run stays so and fails only for lack of a reply |
| `WorkflowControl.Control.Cancel` | internal/workflow/control.go:194-212 | records the request on a run that has not ended, and nothing else; unknown only when there is no such run |
| `WorkflowControl.Control.Delete` | internal/workflow/control.go:215-249 | refuses exactly a run that has not ended; the row goes only when no record, Job, or claim of its sessions is left; other runs keep their rows and snapshots |
| `WorkflowControl.Control.Start` | internal/workflow/control.go:86-148 | creates the run the request asks for, its header, every step's fields, session names, and agent snapshots as defined, or finds one with an equal intent; each refusal exactly for its reason; a new run with unused names is accounted for; other runs keep their rows and snapshots |
| `WorkflowControl.Control.ResolvedSessions` | internal/workflow/control.go:378-385 | the snapshots hold every step's agent definition |
| `WorkflowControl.Control.CleanupCanceledStarts` | internal/workflow/control.go:437-459 | after a race lost to a cancel request none of the sessions just started keeps a Job |
| `RunCreation.LoadedIsConfigured` | internal/catalog/workflows.go:151-227 | every workflow that loads has what runs need: steps with a rank, the step rules, label names, and one valid definition for each agent |
| `RunCreation.CreatedRun` | internal/workflow/control.go:115-132 | a created run is fresh, inherits the definition's rank and handoffs, and its sessions carry its name |
| `RunCreation.CreatedAccounted` | internal/workflow/control.go:115-132 | a created run whose names are unused is accounted for, and everything it will ask of a session is valid |
| `StepSessions.PromptExactly` | internal/workflow/control.go:704-713 | a step's prompt is the goal, then the step's task, then one JSON object with each direct dependency's output or null, in name order, separated by commas |
| `StepSessions.SessionDoesStep` | internal/workflow/control.go:387-435 | every recorded session of an accounted run has the run's repository and ref, the step's agent, its timeout, kind, and prompt, and the source's session and change |
| `StepSessions.FileReachesSession` | internal/catalog/workflows.go:229-260 | from the loaded file and the run's request to the recorded session: the agent's definition, the step's own prompt between goal and outputs, the ref asked for or main |
| `RunDispatch.DispatchIsValid` | internal/session/control.go:653-733 | no dispatch of an accounted run is refused as invalid: every name, prompt, kind, and change it hands on fits the session layer |
| `Accounting.AccountedAfterStart` | internal/session/control.go:143-184 | starting a step's session leaves every step accounted for |
| `Accounting.AccountedAfterRemoving` | internal/session/control.go:387-417 | so does every stage of removing one that may be removed |
| `Accounting.RetriesKeepAccounts` | internal/session/control.go:371-385 | a pass over the recorded deletions, wherever it stops, leaves every run accounted for |
| `Accounting.AccountedAfterMove` | internal/workflow/control.go:252-302 | so does every saved move that follows the sessions |
| `Accounting.OneInitialTask` | internal/session/control.go:143-184 | however often it was dispatched, a step's session has exactly one task, asking for what the step asks for now |
| `Accounting.NoWorkOutlives` | internal/workflow/control.go:506-530 | when a run has ended no session started for it has an unfinished task |
| `Accounting.SourceKept` | internal/workflow/control.go:532-556 | until its run is deleted the session a change comes from stays recorded, persistent, without a storage deletion, and with the claim that holds the change |
| `Accounting.WitnessedChanges` | internal/session/control.go:580-625 | whatever completes a step whose change another applies has reported a change that can be applied |
| `Accounting.RunsShareNoSession` | internal/workflow/control.go:748-752 | runs of different names have no session name in common |
| `Accounting.OtherRunsAccounted` | internal/workflow/control.go:252-302 | whatever happens to sessions of other names and owners, accounted for or not, leaves a run accounted for |
| `Truth.ObservedIsFaithful` | internal/workflow/control.go:461-504 | what a pass over accounted sessions records is what the agents make of each step's request, when finished tasks say what agents do |
| `Truth.ObservedIsPrompt` | internal/workflow/control.go:461-504 | a pass that asked about every active step while their sessions had finished leaves none of them active |
| `Truth.DoneContinues` | internal/workflow/control.go:252-302 | a run's stored history stays faithful to the agents through every operation that saves moves |
| `Truth.SameWorkSameEnd` | internal/workflow/control.go:252-302 | two stored runs whose histories are faithful to the same agents end alike |
| `RunsEnd.ChainLeavesWork` | internal/workflow/control.go:618-640 | a stored run that has not ended and is not to be canceled has a step that has not ended |
| `RunsEnd.OutcomeAdvances` | internal/workflow/control.go:252-302 | every error-free pass over finished sessions brings a run nearer to its end, canceled or not |
| `ServedRuns.NeighborKept` | internal/workflow/control.go:86-302 | an operation on one run keeps every other run accounted for and its history faithful |
| `ServedRuns.ForeignKeeps` | internal/session/control.go:126-417 | so do session operations on sessions of no run |
| `ServedRuns.MovedKept` | internal/workflow/control.go:252-302 | and what a run's own operations save keeps it accounted for and faithful |
| `Serving.Service.Start` | internal/workflow/control.go:86-148 | keeps every tracked run, and tracks the created run exactly when its names were unused |
| `Serving.Service.Reconcile` | internal/workflow/control.go:252-302 | keeps every tracked run; a tracked run fails only for lack of a reply, and an error-free pass over finished sessions brings it nearer to its end |
| `Serving.Service.StepsAreDone` | internal/workflow/control.go:387-435 | in every state of a server, whatever was called, each recorded session of a tracked run does its step as the run was created, field by field |
| `Serving.Service.SourceIsClaimed` | internal/workflow/control.go:532-556 | in every state of a server, whatever was called, a change that a tracked run handed on is still held by its claim until the run is being deleted |
| `Serving.Service.Delete` | internal/workflow/control.go:215-249 | keeps every tracked run; when the row of one is gone no session was left that was started for it |
| `Serving.Service.ReconcileAll` | internal/workflow/control.go:305-322 | a chain of passes, one for every run that has not ended or has a completed step to be cleaned up; when all succeed over finished sessions every tracked run is nearer to its end |
| `Serving.Service.Run` | internal/workflow/control.go:325-351 | when every call succeeds over finished sessions, every tracked run of n steps has ended after n + 1 rounds |
| `Serving.Service.ReconcileDeletions` | cmd/dyne/main.go:183-185 | the deletions retried at startup keep every tracked run |
| `Serving.Service.Serve` | internal/controlplane/server.go:65-82 | in every state of any sequence of calls, no session started for an ended run has an unfinished task, for all runs created with unused names |
| `Serving.EndsAlike` | internal/workflow/control.go:252-302 | one run served by two servers whose agents do the same work ends alike on both, whatever else they served and whatever failed |
| `Layers.LayersAgree` | internal/workflow/control.go:461-504 | a step takes over its task's state exactly when a completed or blocked outcome has string summary and blocker |
| `Layers.StepsFollowTasks` | internal/workflow/control.go:461-504 | in a reconcile pass every legibly finished step ends as its session's latest task |
| `Layers.FailureLeavesNoOutput` | internal/workflow/control.go:677-692 | no task in good order leaves an output on a step that fails |
| `Layers.FailedStepsKeepOutput` | internal/workflow/control.go:461-504 | in a pass over accounted sessions no step that fails gets an output |
| `DnsNames.SessionNameFits` | internal/workflow/control.go:748-752 | an accepted run name gives session names of at most 40 characters |
| `DnsNames.TaskIdFits` | internal/session/control.go:229-232 | an accepted session name and twelve hexadecimal digits give a task id of at most 63 characters; `SessionControl.Control.Continue` records no other |
| `Publications.NeverGoesBack` | internal/publish/publish.go:188-301 | states only go forward, intent and contents are fixed, completed and conflicted are final |
| `Publications.CommitMeansBranch` | internal/publish/publish.go:356-387 | a publication has a commit exactly when a published branch was recorded |
| `PublishWorld.PublicationRepository.Create` | internal/storage/publish.go:25-43 | a lost reply reads as a conflict or as unavailable, and the row is the new one |
| `PublishWorld.PublicationRepository.Update` | internal/storage/publish.go:60-78 | replaces the row only at the held version and only by a move forward |
| `PublishWorld.PublicationRepository.Cascade` | internal/storage/schema/004_publications.sql:2 | with its session the row goes, and a new one starts from nothing |
| `PublishWorld.Publisher.RunPublisher` | internal/workload/publish.go:25-62 | one Job per session and intent, listed under the session's label and handed exactly what the durable publication says, which makes one commit and pushes it unforced at a time of its own choosing |
| `PublishWorld.Publisher.WaitForJob` | internal/workload/publish.go:143-176 | the polling loop reports the end of the very Job it waits for |
| `PublishWorld.Publisher.SessionDeleted` | internal/workload/publish.go:363-368 | the label selector of a session delete finds the publisher Job, and its container may still push |
| `PublishWorld.GitHub.WaitForBranchCommit` | internal/github/client.go:106-131 | succeeds only when the branch was seen at the commit |
| `Publishing.Control.CreateOrLoad` | internal/publish/publish.go:303-323 | the publication that is held has the asked intent |
| `Publishing.Control.EstablishOwnership` | internal/publish/publish.go:325-354 | becomes ready only after neither pull request nor branch was seen; undisturbed and when no call fails it conflicts exactly when the branch is there |
| `Publishing.Control.PublishBranch` | internal/publish/publish.go:356-387 | records a published branch, and once-only holds at every point where it may stop; every Job it creates is handed the publication's session, image, repository, branches, commit message, change, and timeout |
| `Publishing.Control.OpenPullRequest` | internal/publish/publish.go:270-292 | whatever it opens has the publication's title, body, draft flag, head, and base; undisturbed its result is what it opened |
| `Publishing.Control.RecoverFailedPublisher` | internal/publish/publish.go:397-444 | decides exactly by the branch and the report; undisturbed it conflicts exactly when the branch is there and the report is unreadable or the Job that pushed is gone |
| `Publishing.Control.Finish` | internal/publish/publish.go:446-458 | completes the publication once its Job is gone |
| `Publishing.Control.Publish` | internal/publish/publish.go:170-301 | rejects exactly the refused requests and publishes only a session that may be published; every pull request it opens and every Job it creates says what was asked, with the title, body, image, and change of the artifact the publication was created from, the session's own when this call created it; success means the durable record is completed and is the result, a conflict is durable, and a commit is missing exactly when GitHub answered with an open pull request first; all it does to sessions are calls on that one |
| `Publishing.Control.PublishPrepared` | internal/publish/publish.go:196-301 | every call, however it stops, moves the row forward along reachable states and lists no other session's Job |
| `Publishing.Control.Resume` | internal/publish/publish.go:223-301 | a result has no commit exactly when GitHub's answer about the target, given during the call, was an open pull request and no commit was recorded yet; that pull request is then the result; a conflict is durable |
| `Publishing.Control.DeleteSession` | internal/workload/session.go:112-127 | deleting the session removes the publisher Job that was made for it, whatever it is doing; the row goes exactly with the session's record; the world stays reachable, and a session whose compute was deleted can be published again |
| `Publishing.Control.Serve` | internal/controlplane/server.go:65-82 | in every state of any sequence of starting, continuing, publishing, deleting, and starting sessions again, undisturbed at most one push and one pull request have taken effect for any target |
| `PublishSteps.NextKeepsOnce` | internal/publish/publish.go:188-301 | every step of the server, of a Job, of a container that outlives its Job, of a compute deletion, and of a destroyed session whose row goes keeps once-only |
| `PublishSteps.AlwaysOnce` | internal/publish/publish.go:188-301 | once-only holds in every undisturbed execution, through any number of rows of one session name |
| `PublishSteps.CompletedOnce` | internal/publish/publish.go:188-301 | a completed publication made exactly one push and one pull request and names both |
| `PublishSteps.AtMostOnce` | internal/publish/publish.go:188-301 | at any moment at most one push and one pull request have taken effect for any target, however often its session was destroyed and started again |
| `PublishSteps.PendingConflictsExactly` | internal/publish/publish.go:325-354 | undisturbed, a pending publication can become conflicted exactly when its branch is there, which is when this server pushed it before, and can be seen free exactly when it is not |
| `PublishSteps.DestroyedSessionConflicts` | internal/storage/schema/004_publications.sql:2 | an execution in which a session is destroyed after the push, started again, and its publication conflicts |
| `PublishSteps.GivesUpExactly` | internal/publish/publish.go:413-443 | undisturbed, a failed Job of a ready publication is given up exactly when the branch is there and the report is lost or the Job that pushed is gone; one push has then taken effect |
| `PublishSteps.LostReportConflicts` | internal/publish/publish.go:413-443 | an execution in which the report of the Job that pushed is lost and the publication conflicts |
| `PublishSteps.RemovedJobConflicts` | internal/workload/publish.go:363-368 | an execution in which a session delete removes the Job that pushed and the publication conflicts |
| `PublishSteps.OutsidePullCompletes` | internal/publish/publish.go:252-263 | an execution in which an outsider's pull request lets a publication complete without a commit |
| `LockTable.Table.Register` | internal/session/control.go:864-874 | the first critical section finds or makes the name's lock and counts a user |
| `LockTable.Table.Unregister` | internal/session/control.go:876-885 | the second counts one less and forgets an unused lock |
| `LockTable.AlwaysConsistent` | internal/session/control.go:864-886 | in every interleaving of any number of threads the table, its counts, and the holders agree |
| `LockTable.MutualExclusion` | internal/session/control.go:864-886 | at most one thread holds a name |
| `LockTable.EntryWhileUsed` | internal/session/control.go:864-886 | a name has an entry exactly while threads use it, all share its lock, and its count is their number |
| `LockTable.FreeLockIsTaken` | internal/session/control.go:864-886 | a waiting thread can go in whenever nobody holds the name |
| `LockedSessions.OperationActs` | internal/session/control.go:126-417 | what each session operation's contract promises, a thread inside the lock does by single calls |
| `LockedSessions.AlwaysInOrder` | internal/session/control.go:864-886 | in every interleaving of threads that lock, make single calls, and unlock, and so in the middle of operations, rows and resources are in good order |
| `LockedSessions.NobodyInterferes` | internal/session/control.go:864-886 | while a thread is inside a session's lock, no other thread's call changes that session |
| `LockedSessions.OperationsAreIsolated` | internal/session/control.go:864-886 | from locking to unlocking a thread finds its session exactly as its own calls left it, each made on what the one before it did |
| `Base64.EncodedExactly` | container/agent-entrypoint:260-275 | every group of up to three bytes is its digits to base 64 with padding, as section 4 of RFC 4648 says |
| `Base64.AlphabetExactly` | container/agent-entrypoint:260-275 | the digits are the alphabet of section 4 of RFC 4648 in its order |
| `Base64.RoundTrip` | internal/workload/session.go:211-214 | decoding gives back every encoded byte, padding included |
| `TaskArtifacts.ParseTaskArtifacts` | internal/workload/session.go:202-237 | the loop reads a message as the line-by-line function does; it succeeds only with an outcome that is not empty and that some line reports |
| `TaskArtifacts.ReportRoundTrip` | container/agent-entrypoint:260-275 | what the container reports is read as exactly those artifacts, or exactly as the outcome that they did not fit |
| `TaskArtifacts.BadLineIsRefused` | internal/workload/session.go:211-214 | a line that does not decode refuses the whole message |
| `Reports.ReportFinishesTask` | container/agent-entrypoint:229-258 | what the container validates and reports completes or blocks the task, as the outcome says, with exactly those artifacts |
| `Reports.ReportFinishesStep` | internal/workflow/control.go:642-692 | and the step whose session it was, with the reported output and change |
| `Reports.OversizedReportFails` | container/agent-entrypoint:268-273 | a report that does not fit the message fails the task |

## Left out

- HTTP routes, the command line, log streaming, polling intervals and wall-clock values, tokens and credentials beyond
  their being unavailable: input, output, and foreign calls.
- The Kubernetes, GitHub, and EKS clients and manifest rendering: only Jobs, claims, branches, and pull requests are kept.
- YAML and JSON decoding, file and link checks, skill loading: the loaders start from decoded steps, outcomes are decoded
  values, and JSON validity is a parameter of the artifact reader.
- JSON encoding of dependency outputs: escaping of names and compaction of raw JSON are not modelled, names are labels.
- SQL drivers and schema changes: only atomicity, uniqueness, and version checks are kept. Error texts are abbreviated.
- An empty result kind, which a start reads as a pull request: result kinds are an enumeration.
- A run, session, or publication that is deleted and created again under its name between a load and a save: its version
  starts again, so a stale save could then pass the version check. Other controllers here only advance existing runs, and
  other servers only existing publications. Between two calls of one server re-creation is covered.
- Liveness of cancellation and deletion: they are safety claims. A recorded task whose Job was never created cannot be
  observed, and a deletion intent of the other kind makes a destroy conflict until the first one is finished.
- `Publishing.Control.CatchUp`: that a session delete takes the publisher Job and the publication's row away shows in the
  publisher and the row when the delete returns, not at its single calls. Calls follow one another, as the lock that a
  prepared publication keeps makes them; the steps of `PublishSteps` interleave freely.
- Concurrent publishers of one session: the row is proved to move forward for any number of servers, once-only for one
  at a time.
- The limits of 16 steps and 8 parallel steps stay in the loader; everything else holds for any number.
- Listing operations (`Workflows`, the run's `Artifacts`), the newest Pod of a task, and the publisher's termination
  message: they would only add easy members.
- `Serving.Service.Call`: calls follow one another, as the controller's mutex and the session locks make them;
  `LockedSessions` proves that of the session operations. Publishing has its own row and model.
- `Serving.Service.Run`: no other call is made between the rounds whose number it bounds.
- `SessionControl.Control.ReconcileDeletions`: the source does not take the session locks there; the model has no other
  operation run in between.
- `SessionStore.Runtime.Start`: which of the cluster's objects beside the Job and the claim exist is not modelled.
- `WorkflowControl.Control.Reconcile`: with other controllers at work it is claimed to save enabled moves and to touch
  only the run's own sessions, not that those stay accounted for.
- `PublishSteps.CompletedOnce`: with outside actors or several servers a completed publication is only claimed to have moved
  forward, to have a pull request, and to have opened one itself only after the branch was seen at its recorded commit.
