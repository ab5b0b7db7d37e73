/**
 * What the runtime writes: the requests, decisions and evidence it passes around, the payload of each event
 * it appends, and the facts it reads back from a log (authorized_tool_runtime.py, model_adapter.py).
 */
module Protocol {
  import opened Values
  import opened Events
  import opened RunStates
  import opened Reducer
  import opened Replay
  import opened RunGrammar
  import opened ToolEffects

  // ----- Values that cross the runtime's boundary -----

  datatype ModelInput = ModelInput(runId: Text, stepId: Text, turnIndex: int, stateStatus: Status,
                                   observationJson: Name)

  datatype ModelAction =
    | ToolCallAction(toolCallId: Name, toolName: Name, argumentsJson: Name)
    | FinalAnswerAction(answer: Name)

  datatype AdapterReply = Proposes(action: ModelAction) | AdapterFails

  datatype ToolRequest = ToolRequest(runId: Text, stepId: Name, toolCallId: Name, toolName: Name,
                                     argumentsJson: Name, modelActionEventId: Option<Text>)

  datatype Decision =
    | Allow(detail: Val)
    | Deny(reason: Name)
    | Escalate(mode: Mode, paths: Text, reasons: Val)

  datatype GateReference = GateReference(runId: Text, toolCallId: Text, proposalDigest: Text, revision: int)

  datatype GateProposal = GateProposal(reference: GateReference, stepId: Text, toolName: Text,
                                       argumentsJson: Text, mode: Text, reasons: Val)

  /** One adapter action persisted before it is dispatched. */
  datatype DurableModelAction = DurableModelAction(eventId: Text, invocationId: Text, context: ModelInput, action: ModelAction)

  /** A verifying tool turn, rebuilt without calling the adapter. */
  datatype ModelToolRecovery = ModelToolRecovery(context: ModelInput, action: ModelAction, receipt: ToolReceipt)

  datatype Verdict = Passes | Retries | Blocks

  datatype GateEvaluation = GateEvaluation(outcome: Verdict, reason: Name)

  /** Nothing checks the summary of a verification result, so it may be empty (verification.py:42-48). */
  datatype VerificationResult = VerificationResult(passed: bool, checks: Val, summary: Text)

  datatype CompletionResult = CompletionResult(accepted: bool, answerSha256: Text, checks: Val, summary: Name)

  type Positive = n: int | n >= 1 witness 1

  /**
   * The code and policy that one process is started with.  All of it is arbitrary; two calls in a history
   * may be made under different configurations, so nothing here need be constant over a run's life.
   */
  datatype Config = Config(
    authorize: ToolRequest -> Decision,
    evaluateGate: (GateProposal, Text) -> GateEvaluation,
    gateMaxAttempts: Positive,
    registry: Text -> Option<bool>,
    runner: ToolIntent -> RunnerReply,
    adapter: ModelInput -> AdapterReply,
    verify: (ModelInput, ModelAction, ToolReceipt) -> VerificationResult,
    complete: (Name, ModelInput) -> CompletionResult,
    clock: nat -> int)

  // ----- Events as the runtime stamps them -----

  function Stamp(cfg: Config, run: Text, sequence: nat, payload: Payload, rest: seq<Val>): Event {
    Event(EventName(run, sequence, KindOf(payload)), run, sequence, cfg.clock(sequence), payload, rest)
  }

  // ----- Payloads -----

  function AskPayload(run: Text, turn: nat, observation: Text): Payload {
    ModelActionRequested(Str(StepName(turn + 1)), Int(turn), Str(observation),
                         Str(InvocationName(run, StepName(turn + 1))))
  }

  function ProposalPayload(invocation: Text, turn: nat, action: ModelAction): Payload {
    match action
    case ToolCallAction(call, tool, arguments) =>
      ModelActionProposed(Str(invocation), Str(StepName(turn + 1)), Int(turn),
                          Str(Literal(TOOL_CALL)), Str(call), Str(tool), Str(arguments), Missing)
    case FinalAnswerAction(answer) =>
      ModelActionProposed(Str(invocation), Str(StepName(turn + 1)), Int(turn),
                          Str(Literal(FINAL_ANSWER)), Missing, Missing, Missing, Str(answer))
  }

  function RequestPayload(r: ToolRequest): Payload {
    ToolRequested(if r.modelActionEventId.Some? then Str(r.modelActionEventId.value) else Missing,
                  Str(r.stepId), Str(r.toolCallId), Str(r.toolName), Str(r.argumentsJson))
  }

  function ProposalDigest(r: ToolRequest, mode: Mode, paths: Text, revision: nat): Text {
    ProposalHash(r.runId, r.stepId, r.toolCallId, r.toolName, r.argumentsJson, paths, mode, revision)
  }

  function AttemptLimitOf(mode: Mode, limit: Positive): Val {
    if mode == UserGate then Int(limit) else Missing
  }

  function DecisionPayload(cfg: Config, r: ToolRequest): Payload {
    match cfg.authorize(r)
    case Deny(reason) => ToolDenied(Str(r.toolCallId), Str(reason))
    case Escalate(mode, paths, reasons) =>
      ToolEscalated(Str(r.toolCallId), Str(ProposalDigest(r, mode, paths, 1)), Int(1), Str(ModeText(mode)),
                    AttemptLimitOf(mode, cfg.gateMaxAttempts), reasons)
    case Allow(_) => ToolAuthorized(Str(r.toolCallId))
  }

  function DecisionRest(cfg: Config, r: ToolRequest): seq<Val> {
    match cfg.authorize(r)
    case Allow(detail) => [detail]
    case _ => []
  }

  function TextOr(v: Val, default: Word): Text {
    if IsText(v) then v.text else Literal(default)
  }

  function ResultPayload(call: Text, receipt: ToolReceipt): Payload {
    match receipt.outcome
    case TIMED_OUT => ToolTimedOut(Str(call), Str(TextOr(receipt.output.message, TOOL_TIMED_OUT_DEFAULT)))
    case FAILED => ToolFailed(Str(call), Str(TextOr(receipt.output.message, TOOL_FAILED_DEFAULT)))
    case SUCCEEDED => ToolSucceeded(Str(call), Str(receipt.effectId))
  }

  function ResultRest(receipt: ToolReceipt): seq<Val> {
    if receipt.outcome == TIMED_OUT then [receipt.output.timeoutSeconds] else []
  }

  /** A verdict that the log can hold: a failure must say why (reducer.py:486-492). */
  predicate Speaks(v: VerificationResult) {
    v.passed || v.summary != Raw("")
  }

  function StepVerificationPayload(step: Text, v: VerificationResult): Payload {
    if v.passed then VerificationSucceeded(Str(Literal(STEP_SCOPE)), Str(step), v.checks, Str(v.summary))
    else VerificationFailed(Str(v.summary))
  }

  function VerificationRest(v: VerificationResult): seq<Val> {
    if v.passed then [] else [v.checks]
  }

  function CompletionPayload(actionEvent: Option<Text>, step: Text, answer: Text, c: CompletionResult): Payload {
    var reference := if actionEvent.Some? then Str(actionEvent.value) else Missing;
    if c.accepted then CompletionAccepted(reference, Str(step), Str(AnswerHash(answer)), Str(c.summary))
    else CompletionRejected(reference, Str(step), Str(AnswerHash(answer)), Str(c.summary))
  }

  // ----- Facts read back from a log -----

  predicate IsStepVerification(p: Payload) {
    p.VerificationSucceeded? && p.scope == Str(Literal(STEP_SCOPE))
  }

  function ObservationOf(p: Payload): Text
    requires p.VerificationSucceeded?
  {
    ObservationJson(if p.checks.Missing? then List([]) else p.checks,
                    if p.summary.Missing? then Str(Raw("")) else p.summary)
  }

  /** The evidence of the latest verified step, as the next model input carries it. */
  function Observe(log: seq<Event>): Name
  {
    if log == [] then EmptyObjectJson
    else if IsStepVerification(log[|log| - 1].payload) then ObservationOf(log[|log| - 1].payload)
    else Observe(log[..|log| - 1])
  }

  function ActionOf(p: Payload): Option<ModelAction> {
    if !p.ModelActionProposed? then None
    else if p.actionType == Str(Literal(TOOL_CALL)) && IsText(p.toolCallId) && IsText(p.toolName) && IsText(p.argumentsJson) then
      Some(ToolCallAction(p.toolCallId.text, p.toolName.text, p.argumentsJson.text))
    else if p.actionType == Str(Literal(FINAL_ANSWER)) && IsText(p.answer) then Some(FinalAnswerAction(p.answer.text))
    else None
  }

  /** The request a TOOL_REQUESTED event carries; None where rebuilding it raises. */
  function RequestOf(run: Text, p: Payload): Option<ToolRequest> {
    if p.ToolRequested? && IsText(p.stepId) && IsText(p.toolCallId) && IsText(p.toolName) && IsText(p.argumentsJson) then
      Some(ToolRequest(run, p.stepId.text, p.toolCallId.text, p.toolName.text, p.argumentsJson.text,
                       if p.modelActionEventId.Str? then Some(p.modelActionEventId.text) else None))
    else None
  }

  /** The request that opened the current tool phase. */
  function ActiveRequest(run: Text, log: seq<Event>): Option<ToolRequest> {
    var i := LastOf(log, TOOL_REQUESTED);
    if i < 0 then None else RequestOf(run, log[i].payload)
  }

  function IntentOf(r: ToolRequest): ToolIntent {
    BuildIntent(r.runId, r.toolCallId, r.toolName, r.argumentsJson)
  }

  lemma ProposalReadsBack(invocation: Text, turn: nat, action: ModelAction)
    ensures ActionOf(ProposalPayload(invocation, turn, action)) == Some(action)
  {
  }

  lemma RequestReadsBack(r: ToolRequest)
    ensures RequestOf(r.runId, RequestPayload(r)) == Some(r)
  {
  }

  /** A digest binds the whole call, the files that it may touch, who must decide on it, and the revision. */
  lemma ProposalDigestBinds(r: ToolRequest, mode: Mode, paths: Text, revision: nat,
                            s: ToolRequest, otherMode: Mode, otherPaths: Text, otherRevision: nat)
    requires ProposalDigest(r, mode, paths, revision) == ProposalDigest(s, otherMode, otherPaths, otherRevision)
    ensures r.runId == s.runId && r.stepId == s.stepId && r.toolCallId == s.toolCallId
    ensures r.toolName == s.toolName && r.argumentsJson == s.argumentsJson
    ensures mode == otherMode && paths == otherPaths && revision == otherRevision
  {
  }

  /** What the tool did is what the log says: a return, a timeout with its message, or an error with its own. */
  lemma ReplyIsReported(call: Text, id: Text, reply: RunnerReply)
    ensures var p := ResultPayload(call, ReceiptOf(id, reply));
            match reply
            case Returns(_) => p == ToolSucceeded(Str(call), Str(id))
            case RaisesTimeout(_, message, _) =>
              p.ToolTimedOut? && p.toolCallId == Str(call) && p.reason.Str?
              && p.reason.text == if message == Raw("") then Literal(TOOL_TIMED_OUT_DEFAULT) else message
            case RaisesError(_, message) =>
              p.ToolFailed? && p.toolCallId == Str(call) && p.reason.Str?
              && p.reason.text == if message == Raw("") then Literal(TOOL_FAILED_DEFAULT) else message
    ensures ResultRest(ReceiptOf(id, reply)) == if reply.RaisesTimeout? then [reply.timeoutSeconds] else []
  {
  }

  /** The evidence of a passed step is what the next model input observes. */
  lemma VerificationIsObserved(log: seq<Event>, e: Event, step: Text, v: VerificationResult)
    requires e.payload == StepVerificationPayload(step, v)
    ensures Observe(log + [e]) ==
            if v.passed then ObservationJson(if v.checks.Missing? then List([]) else v.checks, Str(v.summary))
            else Observe(log)
  {
    assert (log + [e])[..|log|] == log;
  }

  /** Nothing but the latest step-scoped success is observed, and before the first one an empty object. */
  lemma OnlyStepsAreObserved(log: seq<Event>, e: Event)
    ensures Observe([]) == EmptyObjectJson
    ensures !(e.payload.VerificationSucceeded? && e.payload.scope == Str(Literal(STEP_SCOPE))) ==> Observe(log + [e]) == Observe(log)
  {
    assert (log + [e])[..|log|] == log;
  }

  // ----- The durable world of one run -----

  datatype World = World(log: seq<Event>, state: RunState, intents: map<Text, ToolIntent>, receipts: map<Text, ToolReceipt>)

  /** One event joins the log. */
  function Appended(cfg: Config, run: Text, w: World, payload: Payload, rest: seq<Val>): World {
    var e := Stamp(cfg, run, |w.log|, payload, rest);
    w.(log := w.log + [e],
       state := match Transition(w.state, e) case None => w.state case Some(t) => Advance(t, e))
  }

  /** An event has an identity, and one of the runtime's own form belongs to the event that the form names. */
  predicate IsHonest(e: Event) {
    && e.eventId != Raw("")
    && (e.eventId.EventName? ==> e.eventId == EventName(e.runId, e.sequence, KindOf(e.payload)))
  }

  ghost predicate Honest(log: seq<Event>) {
    forall i :: 0 <= i < |log| ==> IsHonest(log[i])
  }

  /** The log replays to the state, and no application event has taken an identity of the runtime's form. */
  ghost predicate Coherent(run: Text, w: World) {
    && run != Raw("")
    && Accepted(run, w.log) && StateOf(run, w.log) == w.state
    && Honest(w.log)
  }

  lemma FreshIdentity(run: Text, w: World, e: Event)
    requires Coherent(run, w) && e.eventId == EventName(run, |w.log|, KindOf(e.payload))
    ensures FingerprintFor(w.state.applied, e.eventId).None?
    ensures forall i :: 0 <= i < |w.log| ==> w.log[i].eventId != e.eventId
    ensures w.state.runId == run && w.state.nextSequence == |w.log|
  {
    hide KindOf;
    AppliedIsLog(run, w.log);
    ReplayBooks(run, w.log);
    forall i | 0 <= i < |w.log| ensures w.log[i].eventId != e.eventId {
      assert IsHonest(w.log[i]);
    }
    forall i | 0 <= i < |w.state.applied| ensures w.state.applied[i].0 != e.eventId {
      assert w.log[i].eventId == w.state.applied[i].0;
    }
  }

  /** The reducer's answer to a stamped event: terminal runs and refused transitions, nothing else. */
  lemma StampedReduces(cfg: Config, run: Text, w: World, payload: Payload, rest: seq<Val>)
    requires Coherent(run, w)
    ensures var e := Stamp(cfg, run, |w.log|, payload, rest);
            && ReplayRun(run, w.log + [e]) == Reduce(w.state, e)
            && Reduce(w.state, e) ==
               if IsTerminal(w.state.status) then Err(TerminalState)
               else if Transition(w.state, e).None? then Err(InvalidTransition)
               else Ok(Advance(Transition(w.state, e).value, e))
  {
    hide Transition, Coherent, KindOf;
    var e := Stamp(cfg, run, |w.log|, payload, rest);
    FreshIdentity(run, w, e);
    assert ReplayRun(run, w.log) == Ok(w.state) by { CoherentReplays(run, w); }
    FoldSnoc(Initial(run), w.log, e);
  }

  lemma CoherentReplays(run: Text, w: World)
    requires Coherent(run, w)
    ensures ReplayRun(run, w.log) == Ok(w.state)
  {
  }

  lemma CoherentAppend(cfg: Config, run: Text, w: World, payload: Payload, rest: seq<Val>)
    requires Coherent(run, w) && !IsTerminal(w.state.status)
    requires Transition(w.state, Stamp(cfg, run, |w.log|, payload, rest)).Some?
    ensures Coherent(run, Appended(cfg, run, w, payload, rest))
  {
    hide Transition, KindOf, Advance;
    StampedReduces(cfg, run, w, payload, rest);
  }
}
