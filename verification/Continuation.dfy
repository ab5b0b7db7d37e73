/**
 * The uninterrupted run, as a function of the durable world alone: which durable step comes next, and where
 * the steps end (fake_agent.py:342-487 with the runtime and the executor behind it).
 */
module Continuation {
  import opened Values
  import opened Events
  import opened RunStates
  import opened Reducer
  import opened Replay
  import opened Lifecycle
  import opened RunGrammar
  import opened ToolEffects
  import opened Protocol
  import opened RunInvariant

  datatype DurableStep =
    | AppendEvent(payload: Payload, rest: seq<Val>)
    | PersistIntent(intent: ToolIntent)
    | PersistReceipt(receipt: ToolReceipt)

  /** The input of the current turn, rebuilt from state and log. */
  function TurnInput(run: Text, w: World): ModelInput {
    ModelInput(run, StepName(w.state.turnIndex + 1), w.state.turnIndex, Ready, Observe(w.log))
  }

  /** The input of a call on the given step, rebuilt from state and log. */
  function CallInput(run: Text, w: World, step: Text): ModelInput {
    ModelInput(run, step, w.state.turnIndex, Ready, Observe(w.log))
  }

  function Event0(p: Payload): Option<DurableStep> {
    Some(AppendEvent(p, []))
  }

  function NextWhenReady(run: Text, w: World): Option<DurableStep> {
    if w.state.maxSteps.Some? && w.state.maxSteps.value <= w.state.turnIndex then
      Event0(StepBudgetExhausted(Int(w.state.maxSteps.value), Int(w.state.turnIndex)))
    else Event0(AskPayload(run, w.state.turnIndex, Observe(w.log)))
  }

  function NextWhenAsked(cfg: Config, run: Text, w: World): Option<DurableStep> {
    match cfg.adapter(TurnInput(run, w))
    case AdapterFails => Event0(ModelActionFailed(Str(Literal(ADAPTER_FAILED))))
    case Proposes(action) =>
      Event0(ProposalPayload(InvocationName(run, StepName(w.state.turnIndex + 1)), w.state.turnIndex, action))
  }

  function RequestFor(run: Text, w: World, actionEvent: Text, a: ModelAction): ToolRequest
    requires a.ToolCallAction?
  {
    ToolRequest(run, StepName(w.state.turnIndex + 1), a.toolCallId, a.toolName, a.argumentsJson, Some(actionEvent))
  }

  function NextWhenProposed(cfg: Config, run: Text, w: World): Option<DurableStep> {
    if w.log == [] then None
    else
      var proposal := w.log[|w.log| - 1];
      var action := ActionOf(proposal.payload);
      if action.None? then None
      else if action.value.ToolCallAction? then
        Event0(RequestPayload(RequestFor(run, w, proposal.eventId, action.value)))
      else
        var c := cfg.complete(action.value.answer, TurnInput(run, w));
        if c.answerSha256 != AnswerHash(action.value.answer) then None
        else Some(AppendEvent(
                    CompletionPayload(Some(proposal.eventId), StepName(w.state.turnIndex + 1), action.value.answer, c),
                    [Str(action.value.answer), c.checks]))
  }

  function NextWhenRunning(cfg: Config, w: World, request: ToolRequest): Option<DurableStep> {
    var intent := IntentOf(request);
    if cfg.registry(intent.toolName).None? then None
    else if intent.effectId !in w.intents then Some(PersistIntent(intent))
    else if w.intents[intent.effectId] != intent then None
    else if intent.effectId !in w.receipts then Some(PersistReceipt(ReceiptOf(intent.effectId, cfg.runner(intent))))
    else
      var receipt := w.receipts[intent.effectId];
      Some(AppendEvent(ResultPayload(request.toolCallId, receipt), ResultRest(receipt)))
  }

  function CallOf(r: ToolRequest): ModelAction {
    ToolCallAction(r.toolCallId, r.toolName, r.argumentsJson)
  }

  /** The verdict on the request in force; a failure without a reason is where the run ends. */
  function NextWhenVerifying(cfg: Config, run: Text, w: World, request: ToolRequest): Option<DurableStep> {
    var id := IntentOf(request).effectId;
    if id !in w.receipts || w.state.activeStepId.None? then None
    else
      var step := w.state.activeStepId.value;
      var v := cfg.verify(CallInput(run, w, step), CallOf(request), w.receipts[id]);
      if !Speaks(v) then None
      else Some(AppendEvent(StepVerificationPayload(step, v), VerificationRest(v)))
  }

  /** The durable step that the uninterrupted run takes next; None where it waits, ends or raises. */
  function Next(cfg: Config, run: Text, w: World): Option<DurableStep> {
    var request := ActiveRequest(run, w.log);
    match w.state.status
    case Ready => NextWhenReady(run, w)
    case ModelPending => NextWhenAsked(cfg, run, w)
    case ActionPending => NextWhenProposed(cfg, run, w)
    case ToolPending =>
      if request.None? then None
      else Some(AppendEvent(DecisionPayload(cfg, request.value), DecisionRest(cfg, request.value)))
    case ToolReady => if request.None? then None else Event0(ToolStarted(Str(request.value.toolCallId)))
    case ToolRunning => if request.None? then None else NextWhenRunning(cfg, w, request.value)
    case Verifying => if request.None? then None else NextWhenVerifying(cfg, run, w, request.value)
    case _ => None
  }

  function Apply(cfg: Config, run: Text, w: World, step: DurableStep): World {
    match step
    case AppendEvent(payload, rest) => Appended(cfg, run, w, payload, rest)
    case PersistIntent(intent) => w.(intents := w.intents[intent.effectId := intent])
    case PersistReceipt(receipt) => w.(receipts := w.receipts[receipt.effectId := receipt])
  }

  /** A run created with a budget. */
  ghost predicate Bounded(run: Text, w: World) {
    Inv(run, w) && w.state.maxSteps.Some? && WithinBudget(w.state)
  }

  /** How far the effect of the running tool has come. */
  function EffectProgress(run: Text, w: World): (n: nat)
    ensures n <= 2
  {
    var request := ActiveRequest(run, w.log);
    if request.None? then 0
    else
      var id := IntentOf(request.value).effectId;
      Bit(id in w.intents) + Bit(id in w.receipts)
  }

  /** Durable steps that may still follow. */
  function Gauge(run: Text, w: World): int {
    var left := if w.state.maxSteps.Some? then 10 * (w.state.maxSteps.value - w.state.turnIndex) else 0;
    match w.state.status
    case Ready => left + 1
    case ModelPending => left
    case ActionPending => left - 1
    case ToolPending => left - 2
    case ToolReady => left - 3
    case ToolRunning => left - 4 - EffectProgress(run, w)
    case Verifying => left - 7
    case _ => 0
  }

  /** Events that may still follow: seven per turn, and one to report the exhausted budget. */
  function EventsLeft(w: World): int {
    var left := if w.state.maxSteps.Some? then 7 * (w.state.maxSteps.value - w.state.turnIndex) else 0;
    match w.state.status
    case Ready => left + 1
    case ModelPending => left
    case ActionPending => left - 1
    case ToolPending => left - 2
    case ToolReady => left - 3
    case ToolRunning => left - 4
    case Verifying => left - 5
    case _ => 0
  }

  // ----- The next step is always acceptable -----

  /** The run is live and the reducer has a transition for the stamped event. */
  ghost predicate CanTake(cfg: Config, run: Text, w: World, p: Payload, rest: seq<Val>) {
    !IsTerminal(w.state.status) && Transition(w.state, Stamp(cfg, run, |w.log|, p, rest)).Some?
  }

  /** The reducer accepts the event, and it keeps the runtime's promises. */
  ghost predicate Acceptable(cfg: Config, run: Text, w: World, p: Payload, rest: seq<Val>) {
    CanTake(cfg, run, w, p, rest) && Disciplined(run, w, p)
  }

  lemma BudgetEndIsTaken(cfg: Config, run: Text, w: World)
    requires WithinBudget(w.state) && w.state.status.Ready? && !HasBudget(w.state)
    ensures Acceptable(cfg, run, w, StepBudgetExhausted(Int(w.state.maxSteps.value), Int(w.state.turnIndex)), [])
  {
    hide KindOf, ModelTransition, ToolTransition, GateTransition, ResultOfReceipt, RequestOf, ActionOf;
  }

  lemma AskIsTaken(cfg: Config, run: Text, w: World)
    requires w.state.status.Ready? && HasBudget(w.state)
    ensures Acceptable(cfg, run, w, AskPayload(run, w.state.turnIndex, Observe(w.log)), [])
  {
    hide KindOf, RunTransition, ToolTransition, GateTransition, Observe, ResultOfReceipt, RequestOf, ActionOf;
  }

  lemma ReadyIsAcceptable(cfg: Config, run: Text, w: World)
    requires WithinBudget(w.state) && w.state.status.Ready?
    ensures var n := NextWhenReady(run, w).value; Acceptable(cfg, run, w, n.payload, n.rest)
  {
    hide Acceptable, AskPayload, Observe;
    if HasBudget(w.state) {
      AskIsTaken(cfg, run, w);
    } else {
      BudgetEndIsTaken(cfg, run, w);
    }
  }

  lemma AskedIsAcceptable(cfg: Config, run: Text, w: World)
    requires Inv(run, w) && Shape(w.state) && w.state.status.ModelPending?
    ensures var n := NextWhenAsked(cfg, run, w).value; Acceptable(cfg, run, w, n.payload, n.rest)
  {
    hide Coherent, EffectFacts, KindOf, GateShape, AskedAt, RunTransition, ToolTransition, GateTransition;
  }

  lemma ProposedIsAcceptable(cfg: Config, run: Text, w: World)
    requires Inv(run, w) && Shape(w.state) && WithinBudget(w.state) && w.state.status.ActionPending?
    requires NextWhenProposed(cfg, run, w).Some?
    ensures var n := NextWhenProposed(cfg, run, w).value;
            n.AppendEvent? && Acceptable(cfg, run, w, n.payload, n.rest)
  {
    hide Coherent, EffectFacts, KindOf, GateShape, AskedAt, ActionOf, RunTransition, GateTransition;
  }

  lemma AuthorizationIsTaken(cfg: Config, run: Text, w: World, r: ToolRequest, rest: seq<Val>)
    requires w.state.status.ToolPending? && w.state.activeToolCallId == Some(r.toolCallId)
    ensures Acceptable(cfg, run, w, ToolAuthorized(Str(r.toolCallId)), rest)
  {
    hide KindOf, RunTransition, ModelTransition, GateTransition, ResultOfReceipt, RequestOf, ActionOf, AskPayload;
  }

  lemma DenialIsTaken(cfg: Config, run: Text, w: World, r: ToolRequest, reason: Name)
    requires w.state.status.ToolPending? && w.state.activeToolCallId == Some(r.toolCallId)
    ensures Acceptable(cfg, run, w, ToolDenied(Str(r.toolCallId), Str(reason)), [])
  {
    hide KindOf, RunTransition, ModelTransition, GateTransition, ResultOfReceipt, RequestOf, ActionOf, AskPayload;
  }

  lemma EscalationIsTaken(cfg: Config, run: Text, w: World, r: ToolRequest, mode: Mode, paths: Text, reasons: Val)
    requires w.state.status.ToolPending? && w.state.activeToolCallId == Some(r.toolCallId)
    requires ActiveRequest(run, w.log) == Some(r)
    ensures Acceptable(cfg, run, w, ToolEscalated(Str(r.toolCallId), Str(ProposalDigest(r, mode, paths, 1)), Int(1),
                                                  Str(ModeText(mode)), AttemptLimitOf(mode, cfg.gateMaxAttempts), reasons), [])
  {
    hide KindOf, RunTransition, ModelTransition, ToolTransition, ResultOfReceipt, RequestOf, ActionOf, AskPayload,
         ActiveRequest;
  }

  lemma DecisionIsAcceptable(cfg: Config, run: Text, w: World, r: ToolRequest)
    requires w.state.status.ToolPending? && w.state.activeToolCallId == Some(r.toolCallId)
    requires ActiveRequest(run, w.log) == Some(r)
    ensures Acceptable(cfg, run, w, DecisionPayload(cfg, r), DecisionRest(cfg, r))
  {
    hide Acceptable, ProposalDigest, AttemptLimitOf, ActiveRequest;
    match cfg.authorize(r)
    case Allow(detail) => AuthorizationIsTaken(cfg, run, w, r, [detail]);
    case Deny(reason) => DenialIsTaken(cfg, run, w, r, reason);
    case Escalate(mode, paths, reasons) => EscalationIsTaken(cfg, run, w, r, mode, paths, reasons);
  }

  lemma StartIsAcceptable(cfg: Config, run: Text, w: World, r: ToolRequest)
    requires w.state.status.ToolReady? && w.state.activeToolCallId == Some(r.toolCallId)
    ensures Acceptable(cfg, run, w, ToolStarted(Str(r.toolCallId)), [])
  {
    hide KindOf, RunTransition, ModelTransition, GateTransition;
  }

  lemma ResultIsAccepted(cfg: Config, run: Text, w: World, call: Name, receipt: ToolReceipt)
    requires w.state.status.ToolRunning? && w.state.activeToolCallId == Some(call)
    ensures Transition(w.state, Stamp(cfg, run, |w.log|, ResultPayload(call, receipt), ResultRest(receipt))).Some?
  {
    hide KindOf, RunTransition, ModelTransition, GateTransition;
  }

  lemma ResultIsAcceptable(cfg: Config, run: Text, w: World, r: ToolRequest)
    requires w.state.status.ToolRunning? && w.state.activeToolCallId == Some(r.toolCallId)
    requires ActiveRequest(run, w.log) == Some(r)
    requires var i := IntentOf(r);
             i.effectId in w.intents && w.intents[i.effectId] == i && i.effectId in w.receipts
    ensures var receipt := w.receipts[IntentOf(r).effectId];
            Acceptable(cfg, run, w, ResultPayload(r.toolCallId, receipt), ResultRest(receipt))
  {
    hide KindOf, ActiveRequest, Transition;
    ResultIsAccepted(cfg, run, w, r.toolCallId, w.receipts[IntentOf(r).effectId]);
  }

  /** The verdict on the active step is acceptable exactly when it speaks. */
  lemma VerificationIsAcceptable(cfg: Config, run: Text, w: World, step: Name, v: VerificationResult)
    requires w.state.status.Verifying? && w.state.activeStepId == Some(step)
    ensures Acceptable(cfg, run, w, StepVerificationPayload(step, v), VerificationRest(v)) <==> Speaks(v)
  {
    hide KindOf, RunTransition, ModelTransition, GateTransition;
  }

  lemma NextIsAcceptable(cfg: Config, run: Text, w: World)
    requires Inv(run, w) && Next(cfg, run, w).Some? && Next(cfg, run, w).value.AppendEvent?
    ensures var n := Next(cfg, run, w).value; Acceptable(cfg, run, w, n.payload, n.rest)
  {
    hide Inv, Acceptable, NextWhenReady, NextWhenAsked, NextWhenProposed, NextWhenVerifying, DecisionPayload,
         DecisionRest, ActiveRequest, Shape, WithinBudget;
    InvShape(run, w);
    InvNames(run, w);
    var request := ActiveRequest(run, w.log);
    match w.state.status {
      case Ready => ReadyIsAcceptable(cfg, run, w);
      case ModelPending => AskedIsAcceptable(cfg, run, w);
      case ActionPending => ProposedIsAcceptable(cfg, run, w);
      case ToolPending => DecisionIsAcceptable(cfg, run, w, request.value);
      case ToolReady => StartIsAcceptable(cfg, run, w, request.value);
      case ToolRunning => ResultIsAcceptable(cfg, run, w, request.value);
      case Verifying => VerifyingAppends(cfg, run, w, request.value);
      case _ =>
    }
  }

  lemma VerifyingAppends(cfg: Config, run: Text, w: World, r: ToolRequest)
    requires w.state.status.Verifying? && NamesAreTexts(w.state)
    requires NextWhenVerifying(cfg, run, w, r).Some?
    ensures var n := NextWhenVerifying(cfg, run, w, r).value;
            n.AppendEvent? && Acceptable(cfg, run, w, n.payload, n.rest)
  {
    hide Acceptable;
    var id := IntentOf(r).effectId;
    var step: Name := w.state.activeStepId.value;
    VerificationIsAcceptable(cfg, run, w, step, cfg.verify(CallInput(run, w, step), CallOf(r), w.receipts[id]));
  }

  lemma CoherentShape(run: Text, w: World)
    requires Coherent(run, w)
    ensures Shape(w.state) && WithinBudget(w.state) && w.state.runId == run && w.state.nextSequence == |w.log|
    ensures NamesAreTexts(w.state)
  {
    hide Shape, WithinBudget, Honest, NamesAreTexts;
    ReachableShape(run, w.log);
    ReachableNames(run, w.log);
    ReplayBooks(run, w.log);
    AppliedIsLog(run, w.log);
  }

  lemma InvShape(run: Text, w: World)
    requires Inv(run, w)
    ensures Shape(w.state) && WithinBudget(w.state) && w.state.runId == run && w.state.nextSequence == |w.log|
  {
    hide Shape, WithinBudget, TurnFacts, EffectFacts, Coherent, NamesAreTexts;
    CoherentShape(run, w);
  }

  lemma InvNames(run: Text, w: World)
    requires Inv(run, w)
    ensures NamesAreTexts(w.state)
    ensures InToolPhase(w.state.status) ==>
              ActiveRequest(run, w.log).Some? && w.state.activeToolCallId == Some(ActiveRequest(run, w.log).value.toolCallId)
  {
    hide Shape, WithinBudget, EffectFacts, Coherent, NamesAreTexts, ActiveRequest, AskedAt, LastOf;
    CoherentShape(run, w);
  }

  /** A rebuilt request of an accepted log in a tool phase is about the active call. */
  lemma CallInForce(run: Text, w: World)
    requires Coherent(run, w) && InToolPhase(w.state.status) && ActiveRequest(run, w.log).Some?
    ensures w.state.activeToolCallId == Some(ActiveRequest(run, w.log).value.toolCallId)
  {
    hide Honest, LastOf, OpenGate, GateAgrees, Cleared;
    ReachablePhase(run, w.log);
  }

  // ----- Each step keeps the invariant and uses up the gauge -----

  /** A budget, with room for the step under way. */
  ghost predicate HasRoom(w: World) {
    && w.state.maxSteps.Some? && w.state.turnIndex <= w.state.maxSteps.value
    && (InModelPhase(w.state.status) || InToolPhase(w.state.status) || w.state.status.Verifying? ==>
          w.state.turnIndex < w.state.maxSteps.value)
  }

  lemma BoundedHasRoom(run: Text, w: World)
    requires Bounded(run, w)
    ensures HasRoom(w)
  {
    hide Coherent, EffectFacts, ActiveRequest, LastOf, AskedAt, GateShape;
    InvShape(run, w);
  }

  function Step(cfg: Config, run: Text, w: World): World
    requires Next(cfg, run, w).Some?
  {
    Apply(cfg, run, w, Next(cfg, run, w).value)
  }

  lemma EffectStepIsSafe(cfg: Config, run: Text, w: World)
    requires Inv(run, w) && Next(cfg, run, w).Some? && !Next(cfg, run, w).value.AppendEvent?
    ensures w.state.status.ToolRunning? && Inv(run, Step(cfg, run, w))
    ensures Step(cfg, run, w).log == w.log && Step(cfg, run, w).state == w.state
    ensures EffectProgress(run, Step(cfg, run, w)) == EffectProgress(run, w) + 1
  {
    hide Inv, NextWhenReady, NextWhenAsked, NextWhenProposed, NextWhenVerifying, DecisionPayload, DecisionRest,
         ActiveRequest, IntentOf;
    OnlyRunningPersists(cfg, run, w);
    var request := ActiveRequest(run, w.log).value;
    RunningIntent(run, w);
    var n := Next(cfg, run, w).value;
    if n.PersistIntent? {
      IntentKeepsInv(run, w);
    } else {
      ReceiptKeepsInv(run, w, n.receipt);
    }
  }

  /** A receipt of an effect that is not in the intents does not exist either. */
  lemma RunningIntent(run: Text, w: World)
    requires Inv(run, w)
    ensures forall id :: id in w.receipts ==> id in w.intents
  {
    hide Coherent, TurnFacts, OpenIntents, Evidence;
  }

  lemma OnlyRunningPersists(cfg: Config, run: Text, w: World)
    requires Inv(run, w) && Next(cfg, run, w).Some? && !Next(cfg, run, w).value.AppendEvent?
    ensures w.state.status.ToolRunning? && ActiveRequest(run, w.log).Some?
  {
    hide Acceptable, ActiveRequest, Coherent, TurnFacts, EffectFacts, DecisionPayload, DecisionRest;
  }

  /** Status, turn and budget after an acceptable event. */
  lemma AppendedMoves(cfg: Config, run: Text, w: World, p: Payload, rest: seq<Val>)
    requires CanTake(cfg, run, w, p, rest)
    ensures var v := Appended(cfg, run, w, p, rest);
            && Coarse(w.state, p, v.state)
            && |v.log| == |w.log| + 1 && v.log[..|w.log|] == w.log
            && v.intents == w.intents && v.receipts == w.receipts
  {
    hide Transition, Coarse, KindOf;
    TransitionMoves(w.state, Stamp(cfg, run, |w.log|, p, rest));
    CoarseAdvance(w.state, Stamp(cfg, run, |w.log|, p, rest));
  }

  /** Which payload the next step appends in which status. */
  ghost predicate NextKind(s: RunState, p: Payload) {
    match s.status
    case Ready => if HasBudget(s) then p.ModelActionRequested? else p.StepBudgetExhausted?
    case ModelPending => p.ModelActionProposed? || p.ModelActionFailed?
    case ActionPending => p.ToolRequested? || p.CompletionAccepted? || p.CompletionRejected?
    case ToolPending => p.ToolAuthorized? || p.ToolEscalated? || p.ToolDenied?
    case ToolReady => p.ToolStarted?
    case ToolRunning => p.ToolSucceeded? || p.ToolFailed? || p.ToolTimedOut?
    case Verifying => IsStepVerification(p) || p.VerificationFailed?
    case _ => false
  }

  lemma NextKinds(cfg: Config, run: Text, w: World)
    requires Next(cfg, run, w).Some? && Next(cfg, run, w).value.AppendEvent?
    ensures var p := Next(cfg, run, w).value.payload;
            NextKind(w.state, p)
  {
    hide ActiveRequest, Observe, ActionOf;
  }

  /** The uninterrupted run asks on the log's own observation. */
  lemma NextAsksOn(cfg: Config, run: Text, w: World)
    requires Next(cfg, run, w).Some? && Next(cfg, run, w).value.AppendEvent?
    ensures var p := Next(cfg, run, w).value.payload;
            p.ModelActionRequested? ==> p.observationJson == Str(Observe(w.log))
  {
    hide ActiveRequest, Observe, ActionOf;
  }

  lemma GaugeFalls(run: Text, w: World, v: World, p: Payload)
    requires Coarse(w.state, p, v.state) && NextKind(w.state, p)
    requires HasRoom(w) && HasRoom(v)
    ensures 0 <= Gauge(run, v) < Gauge(run, w)
    ensures 0 <= EventsLeft(v) < EventsLeft(w)
  {
    hide EffectProgress, StepMoves;
  }

  /** An event of the kind that comes next keeps the invariant and uses up the gauge, whatever it says. */
  lemma EventIsSafe(cfg: Config, run: Text, w: World, p: Payload, rest: seq<Val>)
    requires Bounded(run, w) && Acceptable(cfg, run, w, p, rest) && NextKind(w.state, p)
    ensures var v := Appended(cfg, run, w, p, rest);
            && Bounded(run, v)
            && 0 <= Gauge(run, v) < Gauge(run, w)
            && w.log <= v.log && |v.log| + EventsLeft(v) <= |w.log| + EventsLeft(w)
  {
    hide Inv, CanTake, Disciplined, Coarse, Gauge, EventsLeft, WithinBudget, Shape, Appended, HasRoom, NextKind;
    InvShape(run, w);
    BoundedHasRoom(run, w);
    var v := Appended(cfg, run, w, p, rest);
    AppendedMoves(cfg, run, w, p, rest);
    AppendKeepsInvariant(cfg, run, w, p, rest);
    InvShape(run, v);
    BudgetStays(w.state, p, v.state);
    BoundedHasRoom(run, v);
    GaugeFalls(run, w, v, p);
  }

  /** One step of the uninterrupted run from a bounded world. */
  lemma StepIsSafe(cfg: Config, run: Text, w: World)
    requires Bounded(run, w) && Next(cfg, run, w).Some?
    ensures var v := Step(cfg, run, w);
            && Bounded(run, v)
            && 0 <= Gauge(run, v) < Gauge(run, w)
            && w.log <= v.log && |v.log| + EventsLeft(v) <= |w.log| + EventsLeft(w)
  {
    hide Inv, Acceptable, Next, Gauge, EventsLeft, WithinBudget, Appended, HasRoom, NextKind;
    var n := Next(cfg, run, w).value;
    var v := Step(cfg, run, w);
    if n.AppendEvent? {
      NextIsAcceptable(cfg, run, w);
      NextKinds(cfg, run, w);
      EventIsSafe(cfg, run, w, n.payload, n.rest);
    } else {
      BoundedHasRoom(run, w);
      EffectStepIsSafe(cfg, run, w);
      GaugeFallsByEffect(run, w, v);
    }
  }

  lemma AppendKeepsInvariant(cfg: Config, run: Text, w: World, p: Payload, rest: seq<Val>)
    requires Inv(run, w) && Acceptable(cfg, run, w, p, rest)
    ensures Inv(run, Appended(cfg, run, w, p, rest))
  {
    hide Inv, Transition, Disciplined, Appended;
    AppendKeepsInv(cfg, run, w, p, rest);
  }

  lemma BudgetStays(s: RunState, p: Payload, t: RunState)
    requires Coarse(s, p, t) && s.maxSteps.Some? && Shape(s)
    ensures t.maxSteps == s.maxSteps
  {
  }

  lemma GaugeFallsByEffect(run: Text, w: World, v: World)
    requires HasRoom(w) && w.state.status.ToolRunning? && v.state == w.state
    requires EffectProgress(run, v) == EffectProgress(run, w) + 1
    ensures 0 <= Gauge(run, v) < Gauge(run, w) && EventsLeft(v) == EventsLeft(w)
  {
  }

  // ----- The uninterrupted run -----

  /** The world in which the uninterrupted run waits, ends or raises. */
  function Finish(cfg: Config, run: Text, w: World): World
    requires Bounded(run, w)
    decreases Gauge(run, w)
  {
    if Next(cfg, run, w).None? then w
    else
      StepIsSafe(cfg, run, w);
      Finish(cfg, run, Step(cfg, run, w))
  }

  /** b lies on the uninterrupted run from a: same end, and at most events added. */
  ghost predicate Along(cfg: Config, run: Text, a: World, b: World) {
    && Bounded(run, a) && Bounded(run, b)
    && Finish(cfg, run, b) == Finish(cfg, run, a)
    && a.log <= b.log
    && |b.log| + EventsLeft(b) <= |a.log| + EventsLeft(a)
  }

  lemma AlongSelf(cfg: Config, run: Text, a: World)
    requires Bounded(run, a)
    ensures Along(cfg, run, a, a)
  {
    hide Bounded, Finish, EventsLeft;
  }

  lemma AlongStep(cfg: Config, run: Text, a: World)
    requires Bounded(run, a) && Next(cfg, run, a).Some?
    ensures Along(cfg, run, a, Step(cfg, run, a))
  {
    hide Bounded, Next, Step, EventsLeft, Gauge;
    StepIsSafe(cfg, run, a);
  }

  lemma AlongChain(cfg: Config, run: Text, a: World, b: World, c: World)
    requires Along(cfg, run, a, b) && Along(cfg, run, b, c)
    ensures Along(cfg, run, a, c)
  {
    hide Bounded, Finish, EventsLeft;
  }

  /** The end of the uninterrupted run is reached only by events within the allowance, and it is an end. */
  lemma {:induction false} FinishIsReached(cfg: Config, run: Text, w: World)
    requires Bounded(run, w)
    ensures Along(cfg, run, w, Finish(cfg, run, w))
    ensures Next(cfg, run, Finish(cfg, run, w)).None?
    decreases Gauge(run, w)
  {
    hide Bounded, Next, Step, EventsLeft, Gauge;
    if Next(cfg, run, w).Some? {
      StepIsSafe(cfg, run, w);
      FinishIsReached(cfg, run, Step(cfg, run, w));
      AlongStep(cfg, run, w);
      AlongChain(cfg, run, w, Step(cfg, run, w), Finish(cfg, run, w));
    } else {
      AlongSelf(cfg, run, w);
    }
  }

  /** Whoever halts on the way has arrived. */
  lemma HaltedIsFinished(cfg: Config, run: Text, a: World, b: World)
    requires Along(cfg, run, a, b) && Next(cfg, run, b).None?
    ensures b == Finish(cfg, run, a)
  {
    hide Next, Step, EventsLeft, Inv, Gauge;
  }

  /** From READY at turn t, at most 7 * (max_steps - t) + 1 events. */
  lemma EventAllowance(cfg: Config, run: Text, w: World)
    requires Bounded(run, w) && w.state.status.Ready?
    ensures |Finish(cfg, run, w).log| <= |w.log| + 7 * (w.state.maxSteps.value - w.state.turnIndex) + 1
  {
    hide Finish, Next;
    FinishIsReached(cfg, run, w);
    BoundedHasRoom(run, Finish(cfg, run, w));
  }
}
