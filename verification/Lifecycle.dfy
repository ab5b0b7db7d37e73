/** What every reachable state satisfies, and the durable step budget. */
module Lifecycle {
  import opened Values
  import opened Events
  import opened RunStates
  import opened Reducer
  import opened Replay

  predicate InToolPhase(status: Status) {
    status.ToolPending? || status.AwaitingGate? || status.ToolReady? || status.ToolRunning?
  }

  predicate InModelPhase(status: Status) {
    status.ModelPending? || status.ActionPending?
  }

  /** Which fields are set in which status. */
  ghost predicate Shape(s: RunState) {
    && (s.activeToolCallId.Some? <==> InToolPhase(s.status))
    && (s.activeModelInvocationId.Some? <==> InModelPhase(s.status))
    && (s.activeModelActionEventId.Some? <==> s.status.ActionPending?)
    && (s.failureReason.Some? <==> s.status.Failed?)
    && (s.activeStepId.Some? ==> InModelPhase(s.status) || s.status.Verifying? || InToolPhase(s.status))
    && (InModelPhase(s.status) ==> s.activeStepId == Some(StepName(s.turnIndex + 1)))
    && GateShape(s)
    && (s.status.New? ==> s.maxSteps.None? && s.turnIndex == 0)
    && (s.status.Created? ==> s.turnIndex == 0)
  }

  ghost predicate GateShape(s: RunState) {
    && (s.activeGateProposalDigest.Some? <==> s.status.AwaitingGate?)
    && (s.activeGateRevision.Some? <==> s.status.AwaitingGate?)
    && (s.activeGateMode.Some? <==> s.status.AwaitingGate?)
    && (s.activeGateMaxAttempts.Some? <==> s.activeGateMode == Some(Literal(USER_GATE)))
    && (s.status.AwaitingGate? ==>
          && s.activeGateRevision.value >= 1
          && (s.activeGateMode.value == Literal(PAIR) || s.activeGateMode.value == Literal(USER_GATE)))
    && 0 <= s.activeGateAttempts
    && (s.activeGateMaxAttempts.Some? ==> s.activeGateAttempts < s.activeGateMaxAttempts.value)
    && (s.activeGateMaxAttempts.None? ==> s.activeGateAttempts == 0)
  }

  /** The turn counter stays inside the budget; a step that is under way still has room to be counted. */
  ghost predicate WithinBudget(s: RunState) {
    s.maxSteps.Some? ==>
      && 1 <= s.maxSteps.value
      && s.turnIndex <= s.maxSteps.value
      && (s.activeStepId.Some? ==> s.turnIndex < s.maxSteps.value)
  }

  lemma GateShapeOfRunStep(s: RunState, e: Event)
    requires GateShape(s) && RunTransition(s, e).Some?
    ensures GateShape(RunTransition(s, e).value)
  {
  }

  lemma ShapeRunStep(s: RunState, e: Event)
    requires Shape(s) && WithinBudget(s) && RunTransition(s, e).Some?
    ensures Shape(RunTransition(s, e).value) && WithinBudget(RunTransition(s, e).value)
  {
    hide GateShape;
    GateShapeOfRunStep(s, e);
  }

  lemma ShapeModelStep(s: RunState, e: Event)
    requires Shape(s) && WithinBudget(s) && ModelTransition(s, e).Some?
    ensures Shape(ModelTransition(s, e).value) && WithinBudget(ModelTransition(s, e).value)
  {
  }

  lemma GateShapeOfToolStep(s: RunState, e: Event)
    requires GateShape(s) && ToolTransition(s, e).Some?
    ensures GateShape(ToolTransition(s, e).value)
  {
  }

  lemma ShapeToolStep(s: RunState, e: Event)
    requires Shape(s) && WithinBudget(s) && ToolTransition(s, e).Some?
    ensures Shape(ToolTransition(s, e).value) && WithinBudget(ToolTransition(s, e).value)
  {
    hide GateShape;
    GateShapeOfToolStep(s, e);
  }

  lemma ShapeEvaluationStep(s: RunState, e: Event)
    requires e.payload.GateEvaluated? && Shape(s) && WithinBudget(s) && GateTransition(s, e).Some?
    ensures Shape(GateTransition(s, e).value) && WithinBudget(GateTransition(s, e).value)
  {
  }

  lemma GateShapeOfGateStep(s: RunState, e: Event)
    requires !e.payload.GateEvaluated? && GateShape(s) && GateTransition(s, e).Some?
    ensures GateShape(GateTransition(s, e).value)
  {
  }

  lemma ShapeGateStep(s: RunState, e: Event)
    requires !e.payload.GateEvaluated? && Shape(s) && WithinBudget(s) && GateTransition(s, e).Some?
    ensures Shape(GateTransition(s, e).value) && WithinBudget(GateTransition(s, e).value)
  {
    hide GateShape;
    GateShapeOfGateStep(s, e);
  }

  lemma ShapeStep(s: RunState, e: Event)
    requires Shape(s) && WithinBudget(s) && Transition(s, e).Some?
    ensures Shape(Transition(s, e).value) && WithinBudget(Transition(s, e).value)
  {
    hide RunTransition, ModelTransition, ToolTransition, GateTransition, Shape, WithinBudget;
    match GroupOf(e.payload)
    case RunGroup => ShapeRunStep(s, e);
    case ModelGroup => ShapeModelStep(s, e);
    case ToolGroup => ShapeToolStep(s, e);
    case GateGroup => if e.payload.GateEvaluated? { ShapeEvaluationStep(s, e); } else { ShapeGateStep(s, e); }
  }

  // ----- The lifecycle as a table of moves -----

  /** Which event leads from which status to which. */
  ghost predicate Moves(from: Status, p: Payload, to: Status) {
    match p
    case RunCreated(_) => from.New? && to.Created?
    case RunStarted => from.Created? && to.Ready?
    case RunPaused => from.Ready? && to.Paused?
    case RunResumed => from.Paused? && to.Ready?
    case RunCancelled => to.Cancelled?
    case StepBudgetExhausted(_, _) => from.Ready? && to.Failed?
    case ModelActionRequested(_, _, _, _) => from.Ready? && to.ModelPending?
    case ModelActionProposed(_, _, _, _, _, _, _, _) => from.ModelPending? && to.ActionPending?
    case ModelActionFailed(_) => (from.Ready? || from.ModelPending?) && to.Failed?
    case CompletionAccepted(_, _, _, _) => (from.Ready? || from.ActionPending?) && to.Completed?
    case CompletionRejected(_, _, _, _) => (from.Ready? || from.ActionPending?) && to.Ready?
    case ToolRequested(_, _, _, _, _) => (from.Ready? || from.ActionPending?) && to.ToolPending?
    case ToolAuthorized(_) => from.ToolPending? && to.ToolReady?
    case ToolEscalated(_, _, _, _, _, _) => from.ToolPending? && to.AwaitingGate?
    case ToolDenied(_, _) => from.ToolPending? && to.Failed?
    case GateApproved(_, _, _) => from.AwaitingGate? && to.ToolReady?
    case GateRejected(_, _, _, _) => from.AwaitingGate? && to.Failed?
    case GateRevised(_, _, _, _, _, _, _, _) => from.AwaitingGate? && to.AwaitingGate?
    case GateEvaluated(_, _, _, _, _, outcome, _) =>
      && from.AwaitingGate?
      && (|| (outcome == Str(Literal(RETRY)) && to.AwaitingGate?)
          || (outcome == Str(Literal(PASS)) && to.ToolReady?)
          || (outcome == Str(Literal(BLOCK)) && to.Failed?))
    case ToolStarted(_) => from.ToolReady? && to.ToolRunning?
    case ToolSucceeded(_, _) => from.ToolRunning? && to.Verifying?
    case ToolFailed(_, _) => from.ToolRunning? && to.Failed?
    case ToolTimedOut(_, _) => from.ToolRunning? && to.Failed?
    case VerificationSucceeded(scope, _, _, _) =>
      from.Verifying? && (if scope == Str(Literal(STEP_SCOPE)) then to.Ready? else to.Completed?)
    case VerificationFailed(_) => from.Verifying? && to.Failed?
  }

  /** The events that consume a turn. */
  predicate ConsumesTurn(p: Payload) {
    || p.CompletionAccepted? || p.CompletionRejected?
    || (p.VerificationSucceeded? && p.scope == Str(Literal(STEP_SCOPE)))
  }

  function Bit(b: bool): nat { if b then 1 else 0 }

  /** A request opens a step if it names one and the budget has room; only a step verification closes it. */
  ghost predicate StepMoves(s: RunState, p: Payload, t: RunState) {
    && (p.ToolRequested? ==> (t.activeStepId.Some? <==> p.stepId.Str?) && (p.stepId.Str? ==> HasBudget(s)))
    && (InToolPhase(s.status) && (InToolPhase(t.status) || t.status.Verifying?) ==> t.activeStepId == s.activeStepId)
    && (p.VerificationSucceeded? && p.scope == Str(Literal(STEP_SCOPE)) ==> s.activeStepId.Some?)
    && (p.ModelActionRequested? || p.CompletionAccepted? || p.CompletionRejected? ==> HasBudget(s))
  }

  /** What a transition does to status, turn, budget and step. */
  ghost predicate Coarse(s: RunState, p: Payload, t: RunState) {
    && Moves(s.status, p, t.status)
    && t.turnIndex == s.turnIndex + Bit(ConsumesTurn(p))
    && (!p.RunCreated? ==> t.maxSteps == s.maxSteps)
    && StepMoves(s, p, t)
  }

  lemma RunMoves(s: RunState, e: Event)
    requires GroupOf(e.payload) == RunGroup && RunTransition(s, e).Some?
    ensures Coarse(s, e.payload, RunTransition(s, e).value)
  {
  }

  lemma ModelMoves(s: RunState, e: Event)
    requires ModelTransition(s, e).Some?
    ensures Coarse(s, e.payload, ModelTransition(s, e).value)
  {
  }

  lemma ToolMoves(s: RunState, e: Event)
    requires ToolTransition(s, e).Some?
    ensures Coarse(s, e.payload, ToolTransition(s, e).value)
  {
  }

  lemma GateMoves(s: RunState, e: Event)
    requires GateTransition(s, e).Some?
    ensures Coarse(s, e.payload, GateTransition(s, e).value)
  {
  }

  lemma TransitionMoves(s: RunState, e: Event)
    requires Transition(s, e).Some?
    ensures Coarse(s, e.payload, Transition(s, e).value)
  {
    hide RunTransition, ModelTransition, ToolTransition, GateTransition, Coarse;
    match GroupOf(e.payload)
    case RunGroup => RunMoves(s, e);
    case ModelGroup => ModelMoves(s, e);
    case ToolGroup => ToolMoves(s, e);
    case GateGroup => GateMoves(s, e);
  }

  /** The last event of an accepted log made one move from a live status. */
  lemma LastMove(run: Text, log: seq<Event>)
    requires Accepted(run, log) && log != []
    ensures var n := |log| - 1; var s := StateOf(run, log[..n]);
            && Accepted(run, log[..n])
            && !IsTerminal(s.status)
            && Coarse(s, log[n].payload, StateOf(run, log))
  {
    hide Transition, Coarse, Accepted;
    LastStep(run, log);
    TransitionMoves(StateOf(run, log[..|log| - 1]), log[|log| - 1]);
    CoarseAdvance(StateOf(run, log[..|log| - 1]), log[|log| - 1]);
  }

  lemma CoarseAdvance(s: RunState, e: Event)
    requires Transition(s, e).Some? && Coarse(s, e.payload, Transition(s, e).value)
    ensures Coarse(s, e.payload, Advance(Transition(s, e).value, e))
  {
    hide Transition;
  }

  lemma ShapeAdvance(t: RunState, e: Event)
    requires Shape(t) && WithinBudget(t)
    ensures Shape(Advance(t, e)) && WithinBudget(Advance(t, e))
  {
  }

  /** Every accepted log ends in a well-shaped state within its budget. */
  lemma {:induction false} ReachableShape(run: Text, log: seq<Event>)
    requires Accepted(run, log)
    ensures Shape(StateOf(run, log)) && WithinBudget(StateOf(run, log))
  {
    if log != [] {
      hide Accepted, StateOf, Transition, Shape, WithinBudget, Advance;
      var n := |log| - 1;
      LastStep(run, log);
      ReachableShape(run, log[..n]);
      ShapeStep(StateOf(run, log[..n]), log[n]);
      ShapeAdvance(Transition(StateOf(run, log[..n]), log[n]).value, log[n]);
    }
  }

  /** The same for any accepted delivery, redeliveries included, together with the bookkeeping. */
  lemma DeliveredShape(run: Text, deliveries: seq<Event>)
    requires ReplayRun(run, deliveries).Ok?
    ensures var s := ReplayRun(run, deliveries).value;
            Shape(s) && WithinBudget(s) && Booked(s) && s.nextSequence == |FirstOccurrences(deliveries)|
  {
    RedeliveryIsInvisible(run, deliveries);
    ReplayBooks(run, deliveries);
    ReachableShape(run, FirstOccurrences(deliveries));
  }

  /** In a terminal state no identity of an open action, call or gate is left behind. */
  lemma TerminalIsEmpty(run: Text, deliveries: seq<Event>)
    requires ReplayRun(run, deliveries).Ok? && IsTerminal(ReplayRun(run, deliveries).value.status)
    ensures var s := ReplayRun(run, deliveries).value;
            && s.activeStepId.None? && s.activeModelInvocationId.None? && s.activeModelActionEventId.None?
            && s.activeToolCallId.None? && s.activeGateProposalDigest.None? && s.activeGateRevision.None?
            && s.activeGateMode.None? && s.activeGateMaxAttempts.None? && s.activeGateAttempts == 0
  {
    DeliveredShape(run, deliveries);
  }

  /** The reason that an event gives for ending its run. */
  function ReasonOf(p: Payload): Option<Text> {
    match p
    case StepBudgetExhausted(limit, completed) =>
      if limit.Int? && completed.Int? then Some(BudgetSpent(completed.number, limit.number)) else None
    case ModelActionFailed(reason) => TextOf(reason)
    case ToolDenied(_, reason) => TextOf(reason)
    case GateRejected(_, _, _, reason) => TextOf(reason)
    case GateEvaluated(_, _, _, _, _, _, reason) => TextOf(reason)
    case ToolFailed(_, reason) => TextOf(reason)
    case ToolTimedOut(_, reason) => TextOf(reason)
    case VerificationFailed(reason) => TextOf(reason)
    case _ => None
  }

  function TextOf(v: Val): Option<Text> {
    if IsText(v) then Some(v.text) else None
  }

  lemma FailingStep(s: RunState, e: Event)
    requires Transition(s, e).Some? && Transition(s, e).value.status.Failed? && !s.status.Failed?
    ensures ReasonOf(e.payload).Some? && Transition(s, e).value.failureReason == ReasonOf(e.payload)
  {
  }

  /** A failed run carries the reason of the event that failed it, whichever of the eight kinds that was. */
  lemma FailureTellsReason(run: Text, log: seq<Event>)
    requires Accepted(run, log) && StateOf(run, log).status.Failed?
    ensures log != [] && ReasonOf(log[|log| - 1].payload).Some?
    ensures StateOf(run, log).failureReason == ReasonOf(log[|log| - 1].payload)
  {
    if log == [] {
      EmptyIsNew(run, log);
    } else {
      hide Accepted, StateOf, Transition, ReasonOf;
      LastStep(run, log);
      FailingStep(StateOf(run, log[..|log| - 1]), log[|log| - 1]);
    }
  }

  lemma EmptyIsNew(run: Text, log: seq<Event>)
    requires log == []
    ensures StateOf(run, log).status.New?
  {
  }

  lemma AppliedBooks(run: Text, log: seq<Event>)
    requires Accepted(run, log)
    ensures StateOf(run, log).nextSequence == |log|
  {
    AppliedIsLog(run, log);
    ReplayBooks(run, log);
  }

  // ----- What events say about the state that takes them -----

  /** The event names the turn, action, call, gate or step that is open in the state. */
  ghost predicate NamesOpen(s: RunState, p: Payload) {
    match p
    case StepBudgetExhausted(limit, completed) =>
      s.maxSteps.Some? && limit == Int(s.maxSteps.value) && completed == Int(s.turnIndex) && !HasBudget(s)
    case ModelActionRequested(step, turn, _, _) => NamesTurn(s, step) && HasValue(turn, s.turnIndex)
    case ModelActionProposed(invocation, step, turn, _, _, _, _, _) =>
      NamesTurn(s, step) && HasValue(turn, s.turnIndex) && NamesOnly(s.activeModelInvocationId, invocation)
    case CompletionAccepted(action, step, _, _) => NamesTurn(s, step) && NamesWaiting(s, action)
    case CompletionRejected(action, step, _, _) => NamesTurn(s, step) && NamesWaiting(s, action)
    case ToolRequested(action, step, _, _, _) => NamesWaiting(s, action) && (step.Str? ==> HasBudget(s))
    case ToolAuthorized(call) => NamesOnly(s.activeToolCallId, call)
    case ToolEscalated(call, _, _, _, _, _) => NamesOnly(s.activeToolCallId, call)
    case ToolDenied(call, _) => NamesOnly(s.activeToolCallId, call)
    case GateApproved(call, digest, revision) => NamesGate(s, call, digest, revision)
    case GateRejected(call, digest, revision, _) => NamesGate(s, call, digest, revision)
    case GateEvaluated(call, digest, revision, attempt, limit, _, _) =>
      && NamesGate(s, call, digest, revision) && attempt == Int(s.activeGateAttempts + 1)
      && s.activeGateMaxAttempts.Some? && limit == Int(s.activeGateMaxAttempts.value)
    case GateRevised(call, digest, revision, newDigest, newRevision, _, _, _) =>
      && NamesGate(s, call, digest, revision) && newDigest != digest
      && s.activeGateRevision.Some? && newRevision == Int(s.activeGateRevision.value + 1)
    case ToolStarted(call) => NamesOnly(s.activeToolCallId, call)
    case ToolSucceeded(call, _) => NamesOnly(s.activeToolCallId, call)
    case ToolFailed(call, _) => NamesOnly(s.activeToolCallId, call)
    case ToolTimedOut(call, _) => NamesOnly(s.activeToolCallId, call)
    case VerificationSucceeded(scope, step, _, _) =>
      if scope == Str(Literal(STEP_SCOPE)) then NamesOnly(s.activeStepId, step)
      else scope == Missing || scope == Str(Literal(RUN_SCOPE))
    case _ => true
  }

  /** The number n, in whatever way JSON can write it: 1 and 0 are also true and false. */
  predicate HasValue(v: Val, n: nat) {
    v == Int(n) || v == Real(n as real) || (n == 0 && v == Bool(false)) || (n == 1 && v == Bool(true))
  }

  predicate NamesOnly(open: Option<Text>, v: Val) {
    open.Some? && v == Str(open.value) && IsText(v)
  }

  /** The step is that of the current turn, and the budget has room for it. */
  predicate NamesTurn(s: RunState, step: Val) {
    step == Str(StepName(s.turnIndex + 1)) && HasBudget(s)
  }

  /** Where a model action waits, it is the one named. */
  predicate NamesWaiting(s: RunState, action: Val) {
    s.status.ActionPending? ==> NamesOnly(s.activeModelActionEventId, action)
  }

  ghost predicate NamesGate(s: RunState, call: Val, digest: Val, revision: Val) {
    && NamesOnly(s.activeToolCallId, call) && NamesOnly(s.activeGateProposalDigest, digest)
    && s.activeGateRevision.Some? && revision == Int(s.activeGateRevision.value)
  }

  /** The statuses in which an event of the kind is taken. */
  predicate MayLeave(from: Status, p: Payload) {
    match p
    case RunCreated(_) => from.New?
    case RunStarted => from.Created?
    case RunResumed => from.Paused?
    case RunCancelled => true
    case ModelActionProposed(_, _, _, _, _, _, _, _) => from.ModelPending?
    case ModelActionFailed(_) => from.Ready? || from.ModelPending?
    case CompletionAccepted(_, _, _, _) => from.Ready? || from.ActionPending?
    case CompletionRejected(_, _, _, _) => from.Ready? || from.ActionPending?
    case ToolRequested(_, _, _, _, _) => from.Ready? || from.ActionPending?
    case ToolAuthorized(_) => from.ToolPending?
    case ToolEscalated(_, _, _, _, _, _) => from.ToolPending?
    case ToolDenied(_, _) => from.ToolPending?
    case GateApproved(_, _, _) => from.AwaitingGate?
    case GateRejected(_, _, _, _) => from.AwaitingGate?
    case GateEvaluated(_, _, _, _, _, _, _) => from.AwaitingGate?
    case GateRevised(_, _, _, _, _, _, _, _) => from.AwaitingGate?
    case ToolStarted(_) => from.ToolReady?
    case ToolSucceeded(_, _) => from.ToolRunning?
    case ToolFailed(_, _) => from.ToolRunning?
    case ToolTimedOut(_, _) => from.ToolRunning?
    case VerificationSucceeded(_, _, _, _) => from.Verifying?
    case VerificationFailed(_) => from.Verifying?
    case _ => from.Ready?
  }

  /** The gate fits who must decide: a pair is asked to approve, a user to answer, and the last answer may not retry. */
  predicate SuitsGate(s: RunState, p: Payload) {
    match p
    case GateApproved(_, _, _) => s.activeGateMode == Some(Literal(PAIR))
    case GateEvaluated(_, _, _, attempt, limit, outcome, _) =>
      && s.activeGateMode == Some(Literal(USER_GATE))
      && (outcome == Str(Literal(PASS)) || outcome == Str(Literal(BLOCK))
          || (outcome == Str(Literal(RETRY)) && attempt.Int? && limit.Int? && attempt.number < limit.number))
    case _ => true
  }

  /** The fields that an event must bring along whatever the state. */
  predicate IsComplete(p: Payload) {
    match p
    case RunCreated(limit) => limit == Missing || limit == Null || (limit.Int? && limit.number >= 1)
    case ModelActionRequested(_, _, observation, invocation) => IsText(observation) && IsText(invocation)
    case ModelActionProposed(_, _, _, kind, call, tool, arguments, answer) =>
      || (kind == Str(Literal(TOOL_CALL)) && IsText(call) && IsText(tool) && IsText(arguments))
      || (kind == Str(Literal(FINAL_ANSWER)) && IsText(answer))
    case ModelActionFailed(reason) => IsText(reason)
    case CompletionAccepted(_, _, hash, summary) => IsText(hash) && IsText(summary)
    case CompletionRejected(_, _, hash, summary) => IsText(hash) && IsText(summary)
    case ToolRequested(_, step, call, _, _) => IsText(call) && (step == Missing || step == Null || IsText(step))
    case ToolDenied(_, reason) => IsText(reason)
    case ToolEscalated(_, digest, revision, mode, limit, _) =>
      IsText(digest) && IsPositive(revision) && IsGateMode(mode) && HasAttemptLimit(mode, limit)
    case GateRejected(_, _, _, reason) => IsText(reason)
    case GateEvaluated(_, _, _, _, _, _, reason) => IsText(reason)
    case GateRevised(_, _, _, digest, _, mode, limit, _) => IsText(digest) && IsGateMode(mode) && HasAttemptLimit(mode, limit)
    case ToolFailed(_, reason) => IsText(reason)
    case ToolTimedOut(_, reason) => IsText(reason)
    case VerificationFailed(reason) => IsText(reason)
    case _ => true
  }

  /** In a well-shaped state an event is taken exactly in its statuses, if it names what is open and is complete. */
  lemma TransitionDecides(s: RunState, e: Event)
    requires Shape(s) && WithinBudget(s)
    ensures Transition(s, e).Some? <==>
              MayLeave(s.status, e.payload) && NamesOpen(s, e.payload) && SuitsGate(s, e.payload) && IsComplete(e.payload)
  {
    hide RunTransition, ModelTransition, ToolTransition, GateTransition, NamesOpen, MayLeave, SuitsGate, IsComplete, Shape,
         WithinBudget;
    match GroupOf(e.payload)
    case RunGroup => RunDecides(s, e);
    case ModelGroup => ModelDecides(s, e);
    case ToolGroup => ToolDecides(s, e);
    case GateGroup => GateDecides(s, e);
  }

  lemma RunDecides(s: RunState, e: Event)
    requires GroupOf(e.payload) == RunGroup && WithinBudget(s)
    ensures RunTransition(s, e).Some? <==>
              MayLeave(s.status, e.payload) && NamesOpen(s, e.payload) && SuitsGate(s, e.payload) && IsComplete(e.payload)
  {
  }

  lemma ModelDecides(s: RunState, e: Event)
    requires GroupOf(e.payload) == ModelGroup && Shape(s) && WithinBudget(s)
    ensures ModelTransition(s, e).Some? <==>
              MayLeave(s.status, e.payload) && NamesOpen(s, e.payload) && SuitsGate(s, e.payload) && IsComplete(e.payload)
  {
  }

  lemma ToolDecides(s: RunState, e: Event)
    requires GroupOf(e.payload) == ToolGroup
    ensures ToolTransition(s, e).Some? <==>
              MayLeave(s.status, e.payload) && NamesOpen(s, e.payload) && SuitsGate(s, e.payload) && IsComplete(e.payload)
  {
  }

  lemma GateDecides(s: RunState, e: Event)
    requires GroupOf(e.payload) == GateGroup && Shape(s)
    ensures GateTransition(s, e).Some? <==>
              MayLeave(s.status, e.payload) && NamesOpen(s, e.payload) && SuitsGate(s, e.payload) && IsComplete(e.payload)
  {
  }

  /**
   * Exactly when a log that replays can be continued by an event with a new identity at the next sequence: the run is
   * live, the event is taken in its status, names what is open there and nothing else, and is complete.
   */
  lemma NextEventDecides(run: Text, log: seq<Event>, e: Event)
    requires Accepted(run, log) && e.runId == run && e.sequence == |log|
    requires forall i :: 0 <= i < |log| ==> log[i].eventId != e.eventId
    ensures var s := StateOf(run, log);
            Accepted(run, log + [e]) <==>
              && !IsTerminal(s.status) && MayLeave(s.status, e.payload)
              && NamesOpen(s, e.payload) && SuitsGate(s, e.payload) && IsComplete(e.payload)
  {
    hide Accepted, StateOf, Transition, NamesOpen, MayLeave, SuitsGate, IsComplete, Shape, WithinBudget;
    NewEventDecides(run, log, e);
    ReachableShape(run, log);
    TransitionDecides(StateOf(run, log), e);
  }

  // ----- Identities -----

  /** No identity that a state holds is the empty string. */
  ghost predicate NamesAreTexts(s: RunState) {
    s.activeStepId != Some(Raw("")) && s.activeModelInvocationId != Some(Raw("")) && s.activeToolCallId != Some(Raw(""))
  }

  lemma NamesRunStep(s: RunState, e: Event)
    requires NamesAreTexts(s) && RunTransition(s, e).Some?
    ensures NamesAreTexts(RunTransition(s, e).value)
  {
  }

  lemma NamesModelStep(s: RunState, e: Event)
    requires NamesAreTexts(s) && ModelTransition(s, e).Some?
    ensures NamesAreTexts(ModelTransition(s, e).value)
  {
  }

  lemma NamesToolStep(s: RunState, e: Event)
    requires NamesAreTexts(s) && ToolTransition(s, e).Some?
    ensures NamesAreTexts(ToolTransition(s, e).value)
  {
  }

  lemma NamesGateStep(s: RunState, e: Event)
    requires NamesAreTexts(s) && GateTransition(s, e).Some?
    ensures NamesAreTexts(GateTransition(s, e).value)
  {
  }

  lemma NamesStep(s: RunState, e: Event)
    requires NamesAreTexts(s) && Transition(s, e).Some?
    ensures NamesAreTexts(Transition(s, e).value)
  {
    hide RunTransition, ModelTransition, ToolTransition, GateTransition, NamesAreTexts;
    match GroupOf(e.payload)
    case RunGroup => NamesRunStep(s, e);
    case ModelGroup => NamesModelStep(s, e);
    case ToolGroup => NamesToolStep(s, e);
    case GateGroup => NamesGateStep(s, e);
  }

  lemma {:induction false} ReachableNames(run: Text, log: seq<Event>)
    requires Accepted(run, log)
    ensures NamesAreTexts(StateOf(run, log))
  {
    if log != [] {
      hide Accepted, StateOf, Transition, Fold;
      LastStep(run, log);
      ReachableNames(run, log[..|log| - 1]);
      NamesStep(StateOf(run, log[..|log| - 1]), log[|log| - 1]);
    }
  }

  lemma ProposalStep(s: RunState, e: Event)
    requires Transition(s, e).Some? && Transition(s, e).value.status.ActionPending?
    ensures e.payload.ModelActionProposed? && Transition(s, e).value.activeModelActionEventId == Some(e.eventId)
  {
    hide RunTransition, ToolTransition, GateTransition;
    TransitionMoves(s, e);
  }

  /** A pending action is the last event's. */
  lemma PendingIsLast(run: Text, log: seq<Event>)
    requires Accepted(run, log) && StateOf(run, log).status.ActionPending?
    ensures log != [] && log[|log| - 1].payload.ModelActionProposed?
    ensures StateOf(run, log).activeModelActionEventId == Some(log[|log| - 1].eventId)
  {
    if log == [] {
      EmptyIsNew(run, log);
    } else {
      hide Accepted, StateOf, Transition;
      LastStep(run, log);
      ProposalStep(StateOf(run, log[..|log| - 1]), log[|log| - 1]);
    }
  }

  /** A run in READY did not just receive a proposal. */
  lemma ReadyAfterNoProposal(run: Text, log: seq<Event>)
    requires Accepted(run, log) && StateOf(run, log).status.Ready? && log != []
    ensures !log[|log| - 1].payload.ModelActionProposed?
  {
    hide Accepted, StateOf;
    LastMove(run, log);
  }

  // ----- Counting over a log -----

  function Count(log: seq<Event>, kind: Kind): nat {
    if log == [] then 0
    else Count(log[..|log| - 1], kind) + (if KindOf(log[|log| - 1].payload) == kind then 1 else 0)
  }

  /** The kinds that the laws below count, by constructor. */
  /** Each of the 25 event types belongs to one kind of payload. */
  lemma KindNames(p: Payload)
    ensures KindOf(p) == RUN_CREATED <==> p.RunCreated?
    ensures KindOf(p) == RUN_STARTED <==> p.RunStarted?
    ensures KindOf(p) == RUN_PAUSED <==> p.RunPaused?
    ensures KindOf(p) == RUN_RESUMED <==> p.RunResumed?
    ensures KindOf(p) == RUN_CANCELLED <==> p.RunCancelled?
    ensures KindOf(p) == RUN_STEP_BUDGET_EXHAUSTED <==> p.StepBudgetExhausted?
    ensures KindOf(p) == MODEL_ACTION_REQUESTED <==> p.ModelActionRequested?
    ensures KindOf(p) == MODEL_ACTION_PROPOSED <==> p.ModelActionProposed?
    ensures KindOf(p) == MODEL_ACTION_FAILED <==> p.ModelActionFailed?
    ensures KindOf(p) == COMPLETION_ACCEPTED <==> p.CompletionAccepted?
    ensures KindOf(p) == COMPLETION_REJECTED <==> p.CompletionRejected?
    ensures KindOf(p) == TOOL_REQUESTED <==> p.ToolRequested?
    ensures KindOf(p) == TOOL_AUTHORIZED <==> p.ToolAuthorized?
    ensures KindOf(p) == TOOL_ESCALATED <==> p.ToolEscalated?
    ensures KindOf(p) == TOOL_DENIED <==> p.ToolDenied?
    ensures KindOf(p) == GATE_APPROVED <==> p.GateApproved?
    ensures KindOf(p) == GATE_REJECTED <==> p.GateRejected?
    ensures KindOf(p) == GATE_EVALUATED <==> p.GateEvaluated?
    ensures KindOf(p) == GATE_REVISED <==> p.GateRevised?
    ensures KindOf(p) == TOOL_STARTED <==> p.ToolStarted?
    ensures KindOf(p) == TOOL_SUCCEEDED <==> p.ToolSucceeded?
    ensures KindOf(p) == TOOL_FAILED <==> p.ToolFailed?
    ensures KindOf(p) == TOOL_TIMED_OUT <==> p.ToolTimedOut?
    ensures KindOf(p) == VERIFICATION_SUCCEEDED <==> p.VerificationSucceeded?
    ensures KindOf(p) == VERIFICATION_FAILED <==> p.VerificationFailed?
  {
  }

  predicate IsStepRequest(p: Payload) {
    p.ToolRequested? && p.stepId.Str?
  }

  function StepRequests(log: seq<Event>): nat {
    if log == [] then 0
    else StepRequests(log[..|log| - 1]) + (if IsStepRequest(log[|log| - 1].payload) then 1 else 0)
  }

  /** One event opens at most one step, and only where the budget has room. */
  lemma RequestIsCounted(s: RunState, p: Payload, t: RunState, n: nat)
    requires Coarse(s, p, t) && !IsTerminal(s.status) && Shape(s) && WithinBudget(s) && WithinBudget(t)
    requires n <= s.turnIndex + Bit(s.activeStepId.Some? && !InModelPhase(s.status))
    requires s.maxSteps.Some? ==> n <= s.maxSteps.value
    ensures !IsTerminal(t.status) ==>
              n + Bit(IsStepRequest(p)) <= t.turnIndex + Bit(t.activeStepId.Some? && !InModelPhase(t.status))
    ensures t.maxSteps.Some? ==> n + Bit(IsStepRequest(p)) <= t.maxSteps.value
  {
    hide GateShape;
  }

  /**
   * At most max_steps tool requests that carry a step identity, in any accepted log, although step
   * verification itself never looks at the budget.
   */
  lemma {:induction false} StepRequestsWithinBudget(run: Text, log: seq<Event>)
    requires Accepted(run, log)
    ensures var s := StateOf(run, log);
            && (!IsTerminal(s.status) ==>
                  StepRequests(log) <= s.turnIndex + Bit(s.activeStepId.Some? && !InModelPhase(s.status)))
            && (s.maxSteps.Some? ==> StepRequests(log) <= s.maxSteps.value)
  {
    if log != [] {
      hide Accepted, StateOf, Shape, WithinBudget, Coarse;
      var n := |log| - 1;
      LastMove(run, log);
      StepRequestsWithinBudget(run, log[..n]);
      ReachableShape(run, log[..n]);
      ReachableShape(run, log);
      RequestIsCounted(StateOf(run, log[..n]), log[n].payload, StateOf(run, log), StepRequests(log[..n]));
    }
  }

  /** The budget fixed at creation is the budget of every later state. */
  lemma {:induction false} BudgetNeverChanges(run: Text, log: seq<Event>, n: nat)
    requires Accepted(run, log) && n <= |log| && !StateOf(run, log[..n]).status.New?
    ensures StateOf(run, log).maxSteps == StateOf(run, log[..n]).maxSteps
    ensures !StateOf(run, log).status.New?
    decreases |log|
  {
    hide Accepted, StateOf;
    if n < |log| {
      var m := |log| - 1;
      LastMove(run, log);
      assert log[..m][..n] == log[..n];
      BudgetNeverChanges(run, log[..m], n);
    } else {
      assert log[..n] == log;
    }
  }

  // ----- Model turns -----

  predicate IsIdle(status: Status) {
    status.New? || status.Created? || status.Ready? || status.Paused?
  }

  /** A run comes back to an idle status only by consuming a turn. */
  lemma IdleAgain(from: Status, p: Payload, to: Status)
    requires Moves(from, p, to)
    ensures IsIdle(to) ==> IsIdle(from) || ConsumesTurn(p)
    ensures p.ModelActionRequested? ==> from.Ready? && !IsIdle(to) && !ConsumesTurn(p)
  {
  }

  /** The turn of the latest adapter intent in the part of the log that replays, or -1. */
  ghost function LatestAskedTurn(run: Text, log: seq<Event>): int {
    if log == [] then -1
    else if log[|log| - 1].payload.ModelActionRequested? && Accepted(run, log) then StateOf(run, log[..|log| - 1]).turnIndex
    else LatestAskedTurn(run, log[..|log| - 1])
  }

  /**
   * The adapter intent is durable before the adapter is crossed, and a turn is asked for at most once:
   * READY never comes back at a turn whose action was already requested.
   */
  lemma {:induction false} EachTurnAskedOnce(run: Text, log: seq<Event>)
    requires Accepted(run, log)
    ensures var s := StateOf(run, log);
            && LatestAskedTurn(run, log) <= s.turnIndex
            && (IsIdle(s.status) ==> LatestAskedTurn(run, log) < s.turnIndex)
            && Count(log, MODEL_ACTION_REQUESTED) <= LatestAskedTurn(run, log) + 1
            && (s.maxSteps.Some? ==> Count(log, MODEL_ACTION_REQUESTED) <= s.maxSteps.value)
  {
    if log != [] {
      hide Accepted, StateOf, KindOf, Moves, Shape;
      var n := |log| - 1;
      LastMove(run, log);
      KindNames(log[n].payload);
      IdleAgain(StateOf(run, log[..n]).status, log[n].payload, StateOf(run, log).status);
      EachTurnAskedOnce(run, log[..n]);
      ReachableShape(run, log[..n]);
    }
  }

  // ----- Flow conservation -----

  predicate IsOutcome(p: Payload, outcome: Word) {
    p.GateEvaluated? && p.outcome == Str(Literal(outcome))
  }

  /** Decisions of a user gate by outcome. */
  function Outcomes(log: seq<Event>, outcome: Word): nat {
    if log == [] then 0
    else Outcomes(log[..|log| - 1], outcome) +
         (var p := log[|log| - 1].payload; Bit(IsOutcome(p, outcome)))
  }

  function StepVerifications(log: seq<Event>): nat {
    if log == [] then 0
    else StepVerifications(log[..|log| - 1]) +
         (var p := log[|log| - 1].payload;
          Bit(p.VerificationSucceeded? && p.scope == Str(Literal(STEP_SCOPE))))
  }

  ghost predicate RequestsBalance(log: seq<Event>, status: Status) {
    Count(log, TOOL_REQUESTED) ==
      Count(log, TOOL_AUTHORIZED) + Count(log, TOOL_ESCALATED) + Count(log, TOOL_DENIED) + Bit(status.ToolPending?)
  }

  ghost predicate GatesBalance(log: seq<Event>, status: Status) {
    Count(log, TOOL_ESCALATED) ==
      Count(log, GATE_APPROVED) + Count(log, GATE_REJECTED) + Outcomes(log, PASS) + Outcomes(log, BLOCK)
      + Bit(status.AwaitingGate?)
  }

  ghost predicate ClearancesBalance(log: seq<Event>, status: Status) {
    Count(log, TOOL_AUTHORIZED) + Count(log, GATE_APPROVED) + Outcomes(log, PASS) ==
      Count(log, TOOL_STARTED) + Bit(status.ToolReady?)
  }

  ghost predicate StartsBalance(log: seq<Event>, status: Status) {
    Count(log, TOOL_STARTED) ==
      Count(log, TOOL_SUCCEEDED) + Count(log, TOOL_FAILED) + Count(log, TOOL_TIMED_OUT) + Bit(status.ToolRunning?)
  }

  ghost predicate SuccessesBalance(log: seq<Event>, status: Status) {
    Count(log, TOOL_SUCCEEDED) ==
      Count(log, VERIFICATION_SUCCEEDED) + Count(log, VERIFICATION_FAILED) + Bit(status.Verifying?)
  }

  /** What a move opens and what it closes. */
  lemma OpenedAndClosed(from: Status, p: Payload, to: Status)
    requires Moves(from, p, to) && !IsTerminal(from) && !to.Cancelled?
    ensures Bit(from.ToolPending?) + Bit(p.ToolRequested?) ==
            Bit(p.ToolAuthorized?) + Bit(p.ToolEscalated?) + Bit(p.ToolDenied?) + Bit(to.ToolPending?)
    ensures Bit(from.AwaitingGate?) + Bit(p.ToolEscalated?) ==
            Bit(p.GateApproved?) + Bit(p.GateRejected?) + Bit(IsOutcome(p, PASS)) + Bit(IsOutcome(p, BLOCK))
            + Bit(to.AwaitingGate?)
    ensures Bit(from.ToolReady?) + Bit(p.ToolAuthorized?) + Bit(p.GateApproved?) + Bit(IsOutcome(p, PASS)) ==
            Bit(p.ToolStarted?) + Bit(to.ToolReady?)
    ensures Bit(from.ToolRunning?) + Bit(p.ToolStarted?) ==
            Bit(p.ToolSucceeded?) + Bit(p.ToolFailed?) + Bit(p.ToolTimedOut?) + Bit(to.ToolRunning?)
    ensures Bit(from.Verifying?) + Bit(p.ToolSucceeded?) ==
            Bit(p.VerificationSucceeded?) + Bit(p.VerificationFailed?) + Bit(to.Verifying?)
  {
  }

  lemma {:induction false} RequestsConserved(run: Text, log: seq<Event>)
    requires Accepted(run, log) && !StateOf(run, log).status.Cancelled?
    ensures RequestsBalance(log, StateOf(run, log).status)
  {
    if log != [] {
      hide Accepted, StateOf, KindOf, Moves, StepMoves, IsOutcome;
      LastMove(run, log);
      RequestsConserved(run, log[..|log| - 1]);
      KindNames(log[|log| - 1].payload);
      OpenedAndClosed(StateOf(run, log[..|log| - 1]).status, log[|log| - 1].payload, StateOf(run, log).status);
    }
  }

  lemma {:induction false} GatesConserved(run: Text, log: seq<Event>)
    requires Accepted(run, log) && !StateOf(run, log).status.Cancelled?
    ensures GatesBalance(log, StateOf(run, log).status)
  {
    if log != [] {
      hide Accepted, StateOf, KindOf, Moves, StepMoves, IsOutcome;
      LastMove(run, log);
      GatesConserved(run, log[..|log| - 1]);
      KindNames(log[|log| - 1].payload);
      OpenedAndClosed(StateOf(run, log[..|log| - 1]).status, log[|log| - 1].payload, StateOf(run, log).status);
    }
  }

  lemma {:induction false} ClearancesConserved(run: Text, log: seq<Event>)
    requires Accepted(run, log) && !StateOf(run, log).status.Cancelled?
    ensures ClearancesBalance(log, StateOf(run, log).status)
  {
    if log != [] {
      hide Accepted, StateOf, KindOf, Moves, StepMoves, IsOutcome;
      LastMove(run, log);
      ClearancesConserved(run, log[..|log| - 1]);
      KindNames(log[|log| - 1].payload);
      OpenedAndClosed(StateOf(run, log[..|log| - 1]).status, log[|log| - 1].payload, StateOf(run, log).status);
    }
  }

  lemma {:induction false} StartsConserved(run: Text, log: seq<Event>)
    requires Accepted(run, log) && !StateOf(run, log).status.Cancelled?
    ensures StartsBalance(log, StateOf(run, log).status)
  {
    if log != [] {
      hide Accepted, StateOf, KindOf, Moves, StepMoves, IsOutcome;
      LastMove(run, log);
      StartsConserved(run, log[..|log| - 1]);
      KindNames(log[|log| - 1].payload);
      OpenedAndClosed(StateOf(run, log[..|log| - 1]).status, log[|log| - 1].payload, StateOf(run, log).status);
    }
  }

  lemma {:induction false} SuccessesConserved(run: Text, log: seq<Event>)
    requires Accepted(run, log) && !StateOf(run, log).status.Cancelled?
    ensures SuccessesBalance(log, StateOf(run, log).status)
  {
    if log != [] {
      hide Accepted, StateOf, KindOf, Moves, StepMoves, IsOutcome;
      LastMove(run, log);
      SuccessesConserved(run, log[..|log| - 1]);
      KindNames(log[|log| - 1].payload);
      OpenedAndClosed(StateOf(run, log[..|log| - 1]).status, log[|log| - 1].payload, StateOf(run, log).status);
    }
  }

  /** Every tool request, gate, clearance, start and success is matched, or is the one still open. */
  lemma FlowConservation(run: Text, log: seq<Event>)
    requires Accepted(run, log) && !StateOf(run, log).status.Cancelled?
    ensures var status := StateOf(run, log).status;
            && RequestsBalance(log, status) && GatesBalance(log, status) && ClearancesBalance(log, status)
            && StartsBalance(log, status) && SuccessesBalance(log, status)
  {
    RequestsConserved(run, log);
    GatesConserved(run, log);
    ClearancesConserved(run, log);
    StartsConserved(run, log);
    SuccessesConserved(run, log);
  }

  /** The turn counter is the number of completion decisions and step verifications. */
  lemma {:induction false} TurnsAreCounted(run: Text, log: seq<Event>)
    requires Accepted(run, log)
    ensures StateOf(run, log).turnIndex ==
            Count(log, COMPLETION_ACCEPTED) + Count(log, COMPLETION_REJECTED) + StepVerifications(log)
  {
    if log != [] {
      hide Accepted, StateOf, KindOf;
      var n := |log| - 1;
      LastMove(run, log);
      KindNames(log[n].payload);
      TurnsAreCounted(run, log[..n]);
    }
  }
}
