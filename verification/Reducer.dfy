/** The pure state machine (src/agent_runtime_lab/domain/reducer.py). */
module Reducer {
  import opened Values
  import opened Events
  import opened RunStates

  datatype ReduceError =
    | RunMismatch
    | DuplicateEventConflict
    | TerminalState
    | SequenceMismatch
    | InvalidTransition

  // The guards of reducer.py:16-76.

  predicate NamesActiveTool(s: RunState, call: Val) {
    IsText(call) && s.activeToolCallId == Some(call.text)
  }

  predicate NamesActiveGate(s: RunState, call: Val, digest: Val, revision: Val) {
    && NamesActiveTool(s, call)
    && IsText(digest) && s.activeGateProposalDigest == Some(digest.text)
    && IsPositive(revision) && s.activeGateRevision == Some(revision.number)
  }

  predicate HasBudget(s: RunState) {
    s.maxSteps.None? || s.turnIndex < s.maxSteps.value
  }

  predicate NamesPendingAction(s: RunState, actionEvent: Val) {
    IsText(actionEvent) && s.activeModelActionEventId == Some(actionEvent.text)
  }

  /** READY, or ACTION_PENDING with a reference to the pending action. */
  predicate MayConsumeAction(s: RunState, actionEvent: Val) {
    s.status.Ready? || (s.status.ActionPending? && NamesPendingAction(s, actionEvent))
  }

  predicate IsGateMode(mode: Val) {
    IsText(mode) && (mode.text == Literal(PAIR) || mode.text == Literal(USER_GATE))
  }

  /** A user gate carries a positive attempt limit; a pair gate carries none that is read. */
  predicate HasAttemptLimit(mode: Val, maxAttempts: Val) {
    mode == Str(Literal(USER_GATE)) ==> IsPositive(maxAttempts)
  }

  predicate IsNextStep(s: RunState, stepId: Val) {
    stepId == Str(StepName(s.turnIndex + 1))
  }

  predicate IsAction(actionType: Val, call: Val, tool: Val, arguments: Val, answer: Val) {
    if actionType == Str(Literal(TOOL_CALL)) then IsText(call) && IsText(tool) && IsText(arguments)
    else actionType == Str(Literal(FINAL_ANSWER)) && IsText(answer)
  }

  // The field updates that several branches share.

  function WithoutGate(s: RunState): RunState {
    s.(activeGateProposalDigest := None, activeGateRevision := None, activeGateMode := None,
       activeGateAttempts := 0, activeGateMaxAttempts := None)
  }

  function WithGate(s: RunState, digest: Text, revision: int, mode: Text, maxAttempts: Val): RunState {
    s.(status := AwaitingGate,
       activeGateProposalDigest := Some(digest), activeGateRevision := Some(revision),
       activeGateMode := Some(mode), activeGateAttempts := 0,
       activeGateMaxAttempts :=
         if mode == Literal(USER_GATE) && maxAttempts.Int? then Some(maxAttempts.number) else None)
  }

  function WithoutAction(s: RunState): RunState {
    s.(activeStepId := None, activeModelInvocationId := None, activeModelActionEventId := None)
  }

  function FailTool(s: RunState, reason: Text): RunState {
    WithoutGate(s).(status := Failed, activeStepId := None, activeToolCallId := None,
                    failureReason := Some(reason))
  }

  // One lifecycle transition; None is InvalidTransitionError.

  /** Run lifecycle and budget (reducer.py:80-135). */
  function RunTransition(s: RunState, e: Event): Option<RunState> {
    match e.payload
    case RunCancelled =>
      Some(WithoutGate(WithoutAction(s)).(status := Cancelled, activeToolCallId := None, failureReason := None))
    case RunCreated(maxSteps) =>
      if s.status.New? && (IsAbsent(maxSteps) || IsPositive(maxSteps)) then
        Some(s.(status := Created, maxSteps := if maxSteps.Int? then Some(maxSteps.number) else None))
      else None
    case RunStarted =>
      if s.status.Created? then Some(s.(status := Ready)) else None
    case RunPaused =>
      if s.status.Ready? then Some(s.(status := Paused)) else None
    case RunResumed =>
      if s.status.Paused? then Some(s.(status := Ready)) else None
    case StepBudgetExhausted(maxSteps, completedSteps) =>
      if && s.status.Ready? && IsPositive(maxSteps) && completedSteps.Int?
         && s.maxSteps == Some(maxSteps.number)
         && completedSteps.number == s.turnIndex && maxSteps.number <= completedSteps.number
      then Some(s.(status := Failed,
                   failureReason := Some(BudgetSpent(completedSteps.number, maxSteps.number))))
      else None
    case _ => None
  }

  /** Model actions and completion decisions (reducer.py:137-226). */
  function ModelTransition(s: RunState, e: Event): Option<RunState> {
    match e.payload
    case ModelActionRequested(stepId, turnIndex, observationJson, invocationId) =>
      if && s.status.Ready? && HasBudget(s) && IsNextStep(s, stepId)
         && EqualsInt(turnIndex, s.turnIndex) && IsText(observationJson) && IsText(invocationId)
      then Some(s.(status := ModelPending, activeStepId := Some(stepId.text),
                   activeModelInvocationId := Some(invocationId.text)))
      else None
    case ModelActionProposed(invocationId, stepId, turnIndex, actionType, call, tool, arguments, answer) =>
      if && s.status.ModelPending?
         && IsText(invocationId) && s.activeModelInvocationId == Some(invocationId.text)
         && IsText(stepId) && s.activeStepId == Some(stepId.text)
         && EqualsInt(turnIndex, s.turnIndex)
         && IsAction(actionType, call, tool, arguments, answer)
      then Some(s.(status := ActionPending, activeModelActionEventId := Some(e.eventId)))
      else None
    case ModelActionFailed(reason) =>
      if (s.status.Ready? || s.status.ModelPending?) && IsText(reason) then
        Some(WithoutAction(s).(status := Failed, failureReason := Some(reason.text)))
      else None
    case CompletionAccepted(actionEvent, stepId, answerSha256, summary) =>
      if && MayConsumeAction(s, actionEvent) && HasBudget(s) && IsNextStep(s, stepId)
         && IsText(answerSha256) && IsText(summary)
      then Some(WithoutAction(s).(status := Completed, turnIndex := s.turnIndex + 1))
      else None
    case CompletionRejected(actionEvent, stepId, answerSha256, summary) =>
      if && MayConsumeAction(s, actionEvent) && HasBudget(s) && IsNextStep(s, stepId)
         && IsText(answerSha256) && IsText(summary)
      then Some(WithoutAction(s).(status := Ready, turnIndex := s.turnIndex + 1))
      else None
    case _ => None
  }

  /** Tool calls and verification (reducer.py:228-252, 395-493). */
  function ToolTransition(s: RunState, e: Event): Option<RunState> {
    match e.payload
    case ToolRequested(actionEvent, stepId, call, _, _) =>
      if && MayConsumeAction(s, actionEvent)
         && (IsAbsent(stepId) || (IsText(stepId) && HasBudget(s)))
         && IsText(call)
      then Some(WithoutAction(s).(status := ToolPending,
                                  activeStepId := if stepId.Str? then Some(stepId.text) else None,
                                  activeToolCallId := Some(call.text)))
      else None
    case ToolAuthorized(call) =>
      if s.status.ToolPending? && NamesActiveTool(s, call) then Some(s.(status := ToolReady)) else None
    case ToolDenied(call, reason) =>
      if s.status.ToolPending? && NamesActiveTool(s, call) && IsText(reason) then
        Some(FailTool(s, reason.text))
      else None
    case ToolStarted(call) =>
      if s.status.ToolReady? && NamesActiveTool(s, call) then Some(s.(status := ToolRunning)) else None
    case ToolSucceeded(call, _) =>
      if s.status.ToolRunning? && NamesActiveTool(s, call) then
        Some(WithoutGate(s).(status := Verifying, activeToolCallId := None))
      else None
    case ToolFailed(call, reason) =>
      if s.status.ToolRunning? && NamesActiveTool(s, call) && IsText(reason) then
        Some(FailTool(s, reason.text))
      else None
    case ToolTimedOut(call, reason) =>
      if s.status.ToolRunning? && NamesActiveTool(s, call) && IsText(reason) then
        Some(FailTool(s, reason.text))
      else None
    case VerificationSucceeded(scope, stepId, _, _) =>
      if !s.status.Verifying? then None
      else if scope == Missing || scope == Str(Literal(RUN_SCOPE)) then
        Some(s.(status := Completed, activeStepId := None))
      else if scope == Str(Literal(STEP_SCOPE)) && IsText(stepId) && s.activeStepId == Some(stepId.text) then
        Some(s.(status := Ready, turnIndex := s.turnIndex + 1, activeStepId := None))
      else None
    case VerificationFailed(reason) =>
      if s.status.Verifying? && IsText(reason) then
        Some(s.(status := Failed, activeStepId := None, failureReason := Some(reason.text)))
      else None
    case _ => None
  }

  /** Gates (reducer.py:254-393). */
  function GateTransition(s: RunState, e: Event): Option<RunState> {
    match e.payload
    case ToolEscalated(call, digest, revision, mode, maxAttempts, _) =>
      if && s.status.ToolPending? && NamesActiveTool(s, call) && IsText(digest) && IsPositive(revision)
         && IsGateMode(mode) && HasAttemptLimit(mode, maxAttempts)
      then Some(WithGate(s, digest.text, revision.number, mode.text, maxAttempts))
      else None
    case GateApproved(call, digest, revision) =>
      if && s.status.AwaitingGate? && NamesActiveGate(s, call, digest, revision)
         && s.activeGateMode == Some(Literal(PAIR))
      then Some(WithoutGate(s).(status := ToolReady))
      else None
    case GateRevised(call, oldDigest, oldRevision, digest, revision, mode, maxAttempts, _) =>
      if && s.status.AwaitingGate? && NamesActiveGate(s, call, oldDigest, oldRevision)
         && IsText(digest) && IsPositive(revision)
         && revision.number == oldRevision.number + 1 && digest.text != oldDigest.text
         && IsGateMode(mode) && HasAttemptLimit(mode, maxAttempts)
      then Some(WithGate(s, digest.text, revision.number, mode.text, maxAttempts))
      else None
    case GateEvaluated(call, digest, revision, attempt, maxAttempts, outcome, reason) =>
      if && s.status.AwaitingGate? && NamesActiveGate(s, call, digest, revision)
         && s.activeGateMode == Some(Literal(USER_GATE))
         && IsPositive(attempt) && IsPositive(maxAttempts)
         && s.activeGateMaxAttempts == Some(maxAttempts.number)
         && attempt.number == s.activeGateAttempts + 1
         && IsText(reason)
      then
        if outcome == Str(Literal(RETRY)) then
          if attempt.number < maxAttempts.number then Some(s.(activeGateAttempts := attempt.number)) else None
        else if outcome == Str(Literal(PASS)) then Some(WithoutGate(s).(status := ToolReady))
        else if outcome == Str(Literal(BLOCK)) then Some(FailTool(s, reason.text))
        else None
      else None
    case GateRejected(call, digest, revision, reason) =>
      if s.status.AwaitingGate? && NamesActiveGate(s, call, digest, revision) && IsText(reason) then
        Some(FailTool(s, reason.text))
      else None
    case _ => None
  }

  datatype Group = RunGroup | ModelGroup | ToolGroup | GateGroup

  function GroupOf(p: Payload): Group {
    match p
    case ModelActionRequested(_, _, _, _) => ModelGroup
    case ModelActionProposed(_, _, _, _, _, _, _, _) => ModelGroup
    case ModelActionFailed(_) => ModelGroup
    case CompletionAccepted(_, _, _, _) => ModelGroup
    case CompletionRejected(_, _, _, _) => ModelGroup
    case ToolRequested(_, _, _, _, _) => ToolGroup
    case ToolAuthorized(_) => ToolGroup
    case ToolDenied(_, _) => ToolGroup
    case ToolStarted(_) => ToolGroup
    case ToolSucceeded(_, _) => ToolGroup
    case ToolFailed(_, _) => ToolGroup
    case ToolTimedOut(_, _) => ToolGroup
    case VerificationSucceeded(_, _, _, _) => ToolGroup
    case VerificationFailed(_) => ToolGroup
    case ToolEscalated(_, _, _, _, _, _) => GateGroup
    case GateApproved(_, _, _) => GateGroup
    case GateRevised(_, _, _, _, _, _, _, _) => GateGroup
    case GateEvaluated(_, _, _, _, _, _, _) => GateGroup
    case GateRejected(_, _, _, _) => GateGroup
    case _ => RunGroup
  }

  function Transition(s: RunState, e: Event): Option<RunState> {
    match GroupOf(e.payload)
    case RunGroup => RunTransition(s, e)
    case ModelGroup => ModelTransition(s, e)
    case ToolGroup => ToolTransition(s, e)
    case GateGroup => GateTransition(s, e)
  }

  /** The bookkeeping that every newly applied event adds (reducer.py:521-526). */
  function Advance(t: RunState, e: Event): RunState {
    t.(nextSequence := t.nextSequence + 1, applied := t.applied + [(e.eventId, Fingerprint(e))])
  }

  /** Apply one delivered event (reducer.py:498-526). */
  function Reduce(s: RunState, e: Event): Result<RunState, ReduceError> {
    if e.runId != s.runId then Err(RunMismatch)
    else
      var known := FingerprintFor(s.applied, e.eventId);
      if known.Some? then
        if known.value == Fingerprint(e) then Ok(s) else Err(DuplicateEventConflict)
      else if IsTerminal(s.status) then Err(TerminalState)
      else if e.sequence != s.nextSequence then Err(SequenceMismatch)
      else
        match Transition(s, e)
        case None => Err(InvalidTransition)
        case Some(t) => Ok(Advance(t, e))
  }
}
