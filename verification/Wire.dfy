/** Wire types of the daemon protocol that the stores and the agent loop exchange. */
module Wire {
  import opened Prelude

  datatype ToolOutcome = Completed | Failed | Cancelled

  datatype PendingState = Queued | WaitingForApproval | WaitingForInput

  datatype Frame =
    | AssistantTurnStarted
    | AssistantMessageDelta(delta: string)
    | AssistantTurnCompleted
    | ToolCallStarted(toolName: string, input: string)
    | ToolCallProgressed(delta: string)
    | ToolCallCompleted(outcome: ToolOutcome)
    | PendingStateChanged(state: PendingState)
    | TokenUsageUpdated(totalTokens: Option<nat>, modelContextWindow: Option<nat>)

  datatype Emission = Emission(
    turnId: Option<string>,
    itemId: Option<string>,
    fragmentSequence: Option<nat>,
    frame: Frame)

  /** The fields of an approval request that the lifecycle looks at; `detail` stands for the rest. */
  datatype ApprovalRequest = ApprovalRequest(id: string, runId: string, toolCallId: Option<string>, detail: string)

  datatype ApprovalResolution = ApprovalResolution(
    approvalId: string,
    runId: string,
    toolCallId: Option<string>,
    detail: string)

  datatype ApprovalEvent = Requested(request: ApprovalRequest) | Resolved(resolution: ApprovalResolution)

  datatype DaemonEvent =
    | AgentStream(runId: string, emission: Emission)
    | Approval(event: ApprovalEvent)
    | RunChanged(runId: string)
    | RunReconciledOnStartup(runId: string)
    | Artifact(runId: string)
    | ContextReceipt(runId: string)
    | TokenUsageRecorded(runId: string)
    | Conflict(runId: string)
    | Budget(runId: string)
    | SessionChanged

  datatype EventRecord = EventRecord(sequence: nat, sessionId: string, occurredAtMs: nat, payload: DaemonEvent)

  datatype Persistence = Durable | Transient

  /** Lifecycle markers are replayable; text deltas and tool progress live only in the stream. */
  function EventPersistence(event: DaemonEvent): Persistence {
    match event
    case AgentStream(_, emission) =>
      (match emission.frame
       case AssistantMessageDelta(_) => Transient
       case ToolCallProgressed(_) => Transient
       case _ => Durable)
    case _ => Durable
  }

  function EventRunId(event: DaemonEvent): Option<string> {
    match event
    case AgentStream(runId, _) => Some(runId)
    case Approval(Requested(request)) => Some(request.runId)
    case Approval(Resolved(resolution)) => Some(resolution.runId)
    case RunChanged(runId) => Some(runId)
    case RunReconciledOnStartup(runId) => Some(runId)
    case Artifact(runId) => Some(runId)
    case ContextReceipt(runId) => Some(runId)
    case TokenUsageRecorded(runId) => Some(runId)
    case Conflict(runId) => Some(runId)
    case Budget(runId) => Some(runId)
    case SessionChanged => None
  }
}
