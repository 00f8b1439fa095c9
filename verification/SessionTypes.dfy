/** The values sessions, workflows, and publishing exchange. */
module SessionTypes {
  import opened Prelude

  datatype Storage = Ephemeral | Persistent

  datatype ResultKind = PullRequest | WorkflowOutput | WorkflowChange

  datatype ChangeArtifact = ChangeArtifact(sha256: string, bytes: int)

  datatype ChangeInput = ChangeInput(session: string, artifact: ChangeArtifact)

  datatype Skill = Skill(name: string, contents: string)

  datatype Definition = Definition(
    agent: string, storage: Storage, instructions: string, skills: seq<Skill>,
    setupCommand: string, cloneDepth: int, storageSize: string, timeout: int)

  /** Raw JSON text that is passed on without being interpreted; "" when absent. */
  type RawJson = string

  /** One member of a decoded JSON object. A null member reads as an absent one. */
  datatype Field = Absent | Text(text: string) | NotText

  /** The outcome artifact: empty, not a JSON object, or an object with the three members that are read. */
  datatype Outcome = NoOutcome | Malformed | Document(status: Field, summary: Field, blocker: Field)

  datatype Artifacts = Artifacts(
    outcome: Outcome, pullRequest: RawJson, workflowOutput: RawJson, change: Option<ChangeArtifact>)

  const NO_ARTIFACTS := Artifacts(NoOutcome, "", "", None)

  datatype StartRequest = StartRequest(
    name: string, repository: string, initialRef: string, prompt: string, timeout: int, resultKind: ResultKind,
    workflowRun: string, workflowStep: string, changeInput: Option<ChangeInput>)

  /** What a publication takes from a session. */
  datatype PublicationSource = PublicationSource(
    repository: string, initialRef: string, image: string, pullRequest: RawJson, change: Option<ChangeArtifact>)

  function TextOf(field: Field): string {
    if field.Text? then field.text else ""
  }

  /** A retained patch is named by 64 lowercase hexadecimal characters and a positive size. */
  predicate ValidChange(change: ChangeArtifact) {
    IsHex(change.sha256, 64) && change.bytes > 0
  }
}
