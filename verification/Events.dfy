/** Immutable execution events (src/agent_runtime_lab/domain/events.py). */
module Events {
  import opened Values

  /**
   * The payload of each event type, restricted to the fields that the reducer or the recovery code
   * reads.  A field holds any JSON value, or `Missing`, so malformed payloads are representable.
   */
  datatype Payload =
    | RunCreated(maxSteps: Val)
    | RunStarted
    | RunPaused
    | RunResumed
    | RunCancelled
    | StepBudgetExhausted(maxSteps: Val, completedSteps: Val)
    | ModelActionRequested(stepId: Val, turnIndex: Val, observationJson: Val, invocationId: Val)
    | ModelActionProposed(invocationId: Val, stepId: Val, turnIndex: Val, actionType: Val,
                          toolCallId: Val, toolName: Val, argumentsJson: Val, answer: Val)
    | ModelActionFailed(reason: Val)
    | CompletionAccepted(modelActionEventId: Val, stepId: Val, answerSha256: Val, summary: Val)
    | CompletionRejected(modelActionEventId: Val, stepId: Val, answerSha256: Val, summary: Val)
    | ToolRequested(modelActionEventId: Val, stepId: Val, toolCallId: Val, toolName: Val, argumentsJson: Val)
    | ToolAuthorized(toolCallId: Val)
    | ToolEscalated(toolCallId: Val, proposalDigest: Val, revision: Val, ownershipMode: Val,
                    maxAttempts: Val, reasons: Val)
    | ToolDenied(toolCallId: Val, reason: Val)
    | GateApproved(toolCallId: Val, proposalDigest: Val, revision: Val)
    | GateRejected(toolCallId: Val, proposalDigest: Val, revision: Val, reason: Val)
    | GateEvaluated(toolCallId: Val, proposalDigest: Val, revision: Val, attempt: Val,
                    maxAttempts: Val, outcome: Val, reason: Val)
    | GateRevised(toolCallId: Val, previousProposalDigest: Val, previousRevision: Val,
                  proposalDigest: Val, revision: Val, ownershipMode: Val, maxAttempts: Val, reasons: Val)
    | ToolStarted(toolCallId: Val)
    | ToolSucceeded(toolCallId: Val, effectId: Val)
    | ToolFailed(toolCallId: Val, reason: Val)
    | ToolTimedOut(toolCallId: Val, reason: Val)
    | VerificationSucceeded(scope: Val, stepId: Val, checks: Val, summary: Val)
    | VerificationFailed(reason: Val)

  /** `rest` carries the payload fields that nothing reads back (actor, answer, normalized paths, ...). */
  datatype Event = Event(eventId: Text, runId: Text, sequence: nat, occurredAt: int,
                         payload: Payload, rest: seq<Val>)

  function KindOf(p: Payload): Kind {
    match p
    case RunCreated(_) => RUN_CREATED
    case RunStarted => RUN_STARTED
    case RunPaused => RUN_PAUSED
    case RunResumed => RUN_RESUMED
    case RunCancelled => RUN_CANCELLED
    case StepBudgetExhausted(_, _) => RUN_STEP_BUDGET_EXHAUSTED
    case ModelActionRequested(_, _, _, _) => MODEL_ACTION_REQUESTED
    case ModelActionProposed(_, _, _, _, _, _, _, _) => MODEL_ACTION_PROPOSED
    case ModelActionFailed(_) => MODEL_ACTION_FAILED
    case CompletionAccepted(_, _, _, _) => COMPLETION_ACCEPTED
    case CompletionRejected(_, _, _, _) => COMPLETION_REJECTED
    case ToolRequested(_, _, _, _, _) => TOOL_REQUESTED
    case ToolAuthorized(_) => TOOL_AUTHORIZED
    case ToolEscalated(_, _, _, _, _, _) => TOOL_ESCALATED
    case ToolDenied(_, _) => TOOL_DENIED
    case GateApproved(_, _, _) => GATE_APPROVED
    case GateRejected(_, _, _, _) => GATE_REJECTED
    case GateEvaluated(_, _, _, _, _, _, _) => GATE_EVALUATED
    case GateRevised(_, _, _, _, _, _, _, _) => GATE_REVISED
    case ToolStarted(_) => TOOL_STARTED
    case ToolSucceeded(_, _) => TOOL_SUCCEEDED
    case ToolFailed(_, _) => TOOL_FAILED
    case ToolTimedOut(_, _) => TOOL_TIMED_OUT
    case VerificationSucceeded(_, _, _, _) => VERIFICATION_SUCCEEDED
    case VerificationFailed(_) => VERIFICATION_FAILED
  }

  /** SHA-256 of the canonical event, taken to be injective: a fingerprint is its event, sealed. */
  datatype Fingerprint = Fingerprint(event: Event)
}
