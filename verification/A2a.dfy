/** The parts of the agent-to-agent protocol's vocabulary that the channel uses. */
module A2a {
  import opened Text

  datatype TaskState =
    | Submitted | Working | InputRequired | AuthRequired
    | Completed | Failed | Canceled | Rejected

  predicate IsTerminal(state: TaskState) {
    state in {Completed, Failed, Canceled, Rejected}
  }

  datatype Part = TextPart(text: string) | DataPart(data: string)

  datatype Artifact = Artifact(artifactId: string, parts: seq<Part>)

  datatype TaskStatus = TaskStatus(state: TaskState, message: Option<string>)

  datatype Task = Task(
    id: string, contextId: string, status: TaskStatus, artifacts: Option<seq<Artifact>>, history: seq<string>)

  datatype StreamResponse =
    | ArtifactUpdate(artifact: Artifact, append: bool, lastChunk: bool)
    | TaskSnapshot(task: Task)
    | Message(parts: seq<Part>)
    | StatusUpdate(status: TaskStatus)
}
