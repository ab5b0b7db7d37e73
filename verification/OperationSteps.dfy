/**
 * What each operation of the runtime may do and what it comes to, in terms of the durable world alone
 * (src/agent_runtime_lab/authorized_tool_runtime.py).
 */
module OperationSteps {
  import opened Values
  import opened Events
  import opened RunStates
  import opened Reducer
  import opened Replay
  import opened Lifecycle
  import opened RunGrammar
  import opened EventStores
  import opened ToolEffects
  import opened Protocol
  import opened RunInvariant
  import opened Continuation
  import opened Guards
  import opened Recovery
  import opened Storages
  import opened LogScans

  lemma LastOfAppended(cfg: Config, run: Text, w: World, p: Payload, rest: seq<Val>)
    ensures var v := Appended(cfg, run, w, p, rest);
            && v.log == w.log + [Stamp(cfg, run, |w.log|, p, rest)]
            && v.log[|w.log|].payload == p
            && v.intents == w.intents && v.receipts == w.receipts
  {
    hide Transition, KindOf;
  }

  /** Any event but a tool request leaves the request in force as it is. */
  lemma RequestStaysInForce(cfg: Config, run: Text, w: World, p: Payload, rest: seq<Val>)
    requires !p.ToolRequested?
    ensures ActiveRequest(run, Appended(cfg, run, w, p, rest).log) == ActiveRequest(run, w.log)
  {
    hide ActiveRequest, KindOf, Appended;
    LastOfAppended(cfg, run, w, p, rest);
    ActiveRequestStays(run, w.log, Stamp(cfg, run, |w.log|, p, rest));
  }

  // ----- Model actions -----

  predicate MayBegin(s: RunState, context: ModelInput) {
    s.status.Ready? && context.stateStatus.Ready? && context.turnIndex == s.turnIndex
    && context.stepId == StepName(s.turnIndex + 1)
  }

  predicate MayPropose(s: RunState, context: ModelInput, invocation: Text) {
    s.status.ModelPending? && s.activeModelInvocationId == Some(invocation)
    && s.activeStepId == Some(context.stepId) && s.turnIndex == context.turnIndex
  }

  /** A context may begin a turn exactly if it is the turn's own input on whatever observation. */
  lemma BeginsOwnTurn(run: Text, w: World, context: ModelInput)
    requires context.runId == run
    ensures MayBegin(w.state, context) <==>
            w.state.status.Ready? && context == TurnInput(run, w).(observationJson := context.observationJson)
  {
    hide Observe;
  }

  /** In a run that keeps its promises an action is taken exactly if it answers the intent of the current turn. */
  lemma AnswersOwnTurn(run: Text, w: World, context: ModelInput, invocation: Text)
    requires Inv(run, w)
    ensures MayPropose(w.state, context, invocation) <==>
            && w.state.status.ModelPending? && invocation == InvocationName(run, StepName(w.state.turnIndex + 1))
            && context.stepId == StepName(w.state.turnIndex + 1) && context.turnIndex == w.state.turnIndex
  {
    hide Inv, AskedAt;
    if w.state.status.ModelPending? {
      AskedIsActive(run, w);
      InvShape(run, w);
      StepOfShape(w.state);
    }
  }

  /**
   * A decision is recorded exactly if its evidence is about the answer's own text, and the answer is the pending one
   * judged on the pending context, or is given in READY on the turn's own input with whatever observation.
   */
  lemma CompletesOwnTurn(run: Text, w: World, context: ModelInput, answer: Name, result: CompletionResult)
    requires Inv(run, w) && context.runId == run
    ensures MayComplete(run, w, context, answer, result) <==>
            && result.answerSha256 == AnswerHash(answer)
            && (if w.state.status.ActionPending? then
                  exists pending :: PendingIs(run, w, pending) && pending.context == context
                                    && pending.action == FinalAnswerAction(answer)
                else w.state.status.Ready? && context == TurnInput(run, w).(observationJson := context.observationJson))
  {
    hide Inv, Observe, ActionOf, PendingOf;
    if w.state.status.ActionPending? {
      PendingIsExact(run, w);
      forall pending | PendingIs(run, w, pending) ensures pending == PendingOf(run, w).value {
        PendingIsUnique(run, w, pending, PendingOf(run, w).value);
      }
    }
  }

  lemma PendingIsUnique(run: Text, w: World, a: DurableModelAction, b: DurableModelAction)
    requires PendingIs(run, w, a) && PendingIs(run, w, b)
    ensures a == b
  {
    hide ActionOf, Observe;
  }

  lemma ProposalNamesStep(run: Text, w: World, context: ModelInput, invocation: Text)
    requires Coherent(run, w) && MayPropose(w.state, context, invocation)
    ensures context.stepId == StepName(w.state.turnIndex + 1) && context.turnIndex == w.state.turnIndex
  {
    hide Coherent, Shape;
    CoherentShape(run, w);
    StepOfShape(w.state);
  }

  /** The action and its context, as `load_pending_model_action` reads them from the two events it finds. */
  function ReadPending(run: Text, invocation: Text, ask: Payload, proposal: Event): (r: Outcome<DurableModelAction>)
    ensures !r.Crashed?
  {
    if !ask.ModelActionRequested? || !IsText(ask.stepId) || !IsText(ask.observationJson) then Raised(GateReferenceMismatch)
    else if !ask.turnIndex.Int? || ask.turnIndex.number < 0 then Raised(ModelActionValidationError)
    else
      var action := ActionOf(proposal.payload);
      if action.None? then Raised(InvalidTransitionError)
      else
        var context := ModelInput(run, ask.stepId.text, ask.turnIndex.number, Ready, ask.observationJson.text);
        Done(DurableModelAction(proposal.eventId, invocation, context, action.value))
  }

  predicate HasPendingFields(s: RunState) {
    s.status.ActionPending? && s.activeModelActionEventId.Some? && s.activeModelInvocationId.Some? && s.activeStepId.Some?
  }

  /** What loading the pending action comes to. */
  ghost function PendingOf(run: Text, w: World): (r: Outcome<DurableModelAction>)
    ensures !r.Crashed?
  {
    if !HasPendingFields(w.state) then Raised(InvalidTransitionError)
    else
      var asked := LastMatch(w.log, AskOf(w.state.activeModelInvocationId.value));
      var proposed := LastMatch(w.log, EventNamed(w.state.activeModelActionEventId.value));
      if asked < 0 || proposed < 0 then Raised(InvalidTransitionError)
      else ReadPending(run, w.state.activeModelInvocationId.value, w.log[asked].payload, w.log[proposed])
  }

  /**
   * The rebuilt action is the last event's, and its context is the turn's own input, on the observation that the
   * adapter intent before it recorded.
   */
  ghost predicate PendingIs(run: Text, w: World, pending: DurableModelAction) {
    && |w.log| >= 2
    && pending.eventId == w.log[|w.log| - 1].eventId
    && pending.invocationId == InvocationName(run, StepName(w.state.turnIndex + 1))
    && pending.context == TurnInput(run, w).(observationJson := pending.context.observationJson)
    && w.log[|w.log| - 2].payload == AskPayload(run, w.state.turnIndex, pending.context.observationJson)
    && ActionOf(w.log[|w.log| - 1].payload) == Some(pending.action)
  }

  /** Begun on the log's own observation, the pending action waits on the turn's own input, and on no other. */
  lemma PendingInput(run: Text, w: World, pending: DurableModelAction)
    requires PendingIs(run, w, pending) && w.state.status.ActionPending?
    ensures pending.context == TurnInput(run, w) <==> Observed(w)
  {
    hide ActionOf, Observe;
  }

  /** In a run that keeps its promises the pending action is precisely what was persisted. */
  lemma PendingIsExact(run: Text, w: World)
    requires Inv(run, w) && w.state.status.ActionPending?
    ensures PendingOf(run, w).Done? && PendingIs(run, w, PendingOf(run, w).value)
  {
    hide Inv, ActionOf, Observe, Matches;
    assert HasPendingFields(w.state) by {
      InvShape(run, w);
      StepOfShape(w.state);
    }
    PendingFound(run, w, LastMatch(w.log, AskOf(w.state.activeModelInvocationId.value)),
                 LastMatch(w.log, EventNamed(w.state.activeModelActionEventId.value)));
  }

  /** The conditions under which a completion decision is recorded. */
  ghost predicate MayComplete(run: Text, w: World, context: ModelInput, answer: Name, result: CompletionResult) {
    && (w.state.status.Ready? || w.state.status.ActionPending?)
    && context.stateStatus.Ready? && context.turnIndex == w.state.turnIndex
    && context.stepId == StepName(w.state.turnIndex + 1)
    && result.answerSha256 == AnswerHash(answer)
    && (w.state.status.ActionPending? ==>
          && PendingOf(run, w).Done?
          && PendingOf(run, w).value.context == context && PendingOf(run, w).value.action == FinalAnswerAction(answer))
  }

  // ----- Inside one call -----

  /** The events between a request and its verification. */
  predicate IsCallEvent(p: Payload) {
    || p.ToolAuthorized? || p.ToolEscalated? || p.ToolDenied? || p.ToolStarted?
    || p.ToolSucceeded? || p.ToolFailed? || p.ToolTimedOut?
  }

  /** Turn and observation are the same, and only events of a call have joined the log. */
  ghost predicate InCall(w: World, v: World) {
    && SameTurn(w, v) && w.log <= v.log
    && forall i :: |w.log| <= i < |v.log| ==> IsCallEvent(v.log[i].payload)
  }

  lemma InCallChain(w: World, v: World, x: World)
    requires InCall(w, v) && InCall(v, x)
    ensures InCall(w, x)
  {
    hide Observe;
  }

  lemma LogsOfCall(w: World, v: World)
    requires InCall(w, v)
    ensures w.log <= v.log
  {
    hide Observe;
  }

  lemma InCallSelf(w: World)
    ensures InCall(w, w)
  {
  }

  lemma TurnStaysInCall(cfg: Config, run: Text, w: World, p: Payload, rest: seq<Val>)
    requires CanTake(cfg, run, w, p, rest) && IsCallEvent(p)
    ensures InCall(w, Appended(cfg, run, w, p, rest))
  {
    hide CanTake, Appended, Observe;
    TurnStays(cfg, run, w, p, rest);
    LastOfAppended(cfg, run, w, p, rest);
  }

  // ----- Verification -----

  /** The receipt is the stored, successful one of the request in force. */
  ghost predicate EvidenceIs(run: Text, w: World, receipt: ToolReceipt) {
    && ActiveRequest(run, w.log).Some?
    && var intent := IntentOf(ActiveRequest(run, w.log).value);
    && intent.effectId in w.intents && w.intents[intent.effectId] == intent
    && intent.effectId in w.receipts && w.receipts[intent.effectId] == receipt
    && receipt.outcome == SUCCEEDED
  }

  /** The evidence is what the tool returned when it was invoked for the request in force. */
  lemma EvidenceIsReturned(registry: Text -> Option<bool>, run: Text, st: Storage, receipt: ToolReceipt)
    requires LedgerSound(registry, st) && GoodEffects(st.fx.intents, st.fx.receipts)
    requires EvidenceIs(run, WorldIn(st, run), receipt)
    ensures var request := ActiveRequest(run, WorldIn(st, run).log);
            && request.Some?
            && exists i :: ToldBy(st.fx.ledger, i, receipt) && st.fx.ledger[i].reply == Returns(receipt.output.body)
                           && st.fx.ledger[i].toolName == request.value.toolName
                           && st.fx.ledger[i].argumentsJson == request.value.argumentsJson
  {
    hide JustifiedLedger, ActiveRequest, Witnessed, StateOf;
    var request := ActiveRequest(run, WorldIn(st, run).log).value;
    IntentNames(request);
    SuccessIsReturned(st.fx, IntentOf(request).effectId);
    var i :| ToldBy(st.fx.ledger, i, receipt) && st.fx.ledger[i].reply == Returns(receipt.output.body);
    assert st.fx.ledger[i].effectId in st.fx.intents;
  }

  /** The success that the scan finds leads to the evidence. */
  lemma EvidenceRead(run: Text, w: World, i: int)
    requires Inv(run, w) && w.state.status.Verifying? && IsLastMatch(w.log, AnySuccess, i)
    ensures 0 <= i < |w.log| && w.log[i].payload.ToolSucceeded? && IsText(w.log[i].payload.effectId)
    ensures var id := w.log[i].payload.effectId.text;
            id in w.receipts && w.receipts[id].outcome == SUCCEEDED && EvidenceIs(run, w, w.receipts[id])
  {
    hide Coherent, TurnFacts, ActiveRequest, OpenIntents, IsLastMatch, IntentOf;
    EvidenceFound(run, w, i);
  }

  lemma VerifyingFields(run: Text, w: World)
    requires Inv(run, w) && w.state.status.Verifying?
    ensures ActiveRequest(run, w.log).Some?
    ensures w.state.activeStepId == Some(ActiveRequest(run, w.log).value.stepId)
  {
    hide Coherent, EffectFacts, AskedAt, ActionOf, LastOf, ActiveRequest;
    RequestIsActive(run, w);
  }

  /** Between the request in force and its verification no step is verified. */
  lemma NoStepVerifiedSince(run: Text, log: seq<Event>)
    requires Accepted(run, log) && StateOf(run, log).status.Verifying?
    ensures var i := LastOf(log, TOOL_REQUESTED);
            i >= 0 && forall k :: i <= k < |log| ==> !IsStepVerification(log[k].payload)
  {
    hide Accepted, StateOf, KindOf, GateAgrees, LastOf, Cleared, OpenGate;
    ReachablePhase(run, log);
    var i, n := LastOf(log, TOOL_REQUESTED), |log|;
    var segment := log[i + 1..n - 2];
    NoStepVerifiedInGate(segment, log[i].payload.toolCallId.text);
    forall k | i <= k < n ensures !IsStepVerification(log[k].payload) {
      if i < k < n - 2 {
        assert log[k] == segment[k - i - 1];
      }
    }
  }

  lemma NoStepVerifiedInGate(segment: seq<Event>, call: Text)
    requires Cleared(segment, call)
    ensures forall k :: 0 <= k < |segment| ==> !IsStepVerification(segment[k].payload)
  {
    hide Newest;
    var n := |segment| - 1;
    forall k | 0 <= k < |segment| ensures !IsStepVerification(segment[k].payload) {
      if k < n {
        assert segment[k] == segment[..n][k];
      }
    }
  }

  lemma {:induction false} ObserveSince(log: seq<Event>, i: nat)
    requires i <= |log| && forall k :: i <= k < |log| ==> !IsStepVerification(log[k].payload)
    ensures Observe(log) == Observe(log[..i])
  {
    if i < |log| {
      var n := |log| - 1;
      ObserveSince(log[..n], i);
      assert log[..n][..i] == log[..i];
    } else {
      assert log[..i] == log;
    }
  }

  /** The run as it was before the request in force. */
  ghost function BeforeRequest(run: Text, w: World): World {
    var i := LastOf(w.log, TOOL_REQUESTED);
    if i < 0 then w else w.(log := w.log[..i], state := StateOf(run, w.log[..i]))
  }

  /**
   * A call that was requested for a proposed action is recovered on the turn that the adapter was asked about, and on
   * the very observation that it was asked with if and only if that action waited on the log's own observation.
   */
  lemma RecoveredInputIsOriginal(run: Text, w: World, i: nat)
    requires i == LastOf(w.log, TOOL_REQUESTED) && i >= 1 && w.log[i - 1].payload.ModelActionProposed?
    requires w.state.status.Verifying? && Inv(run, w)
    ensures i >= 2 && IsAskOf(run, w.state.turnIndex, w.log[i - 2].payload)
    ensures BeforeRequest(run, w).state.status.ActionPending?
    ensures var request := ActiveRequest(run, w.log);
            && request.Some? && request.value.modelActionEventId == Some(w.log[i - 1].eventId)
            && var input := CallInput(run, w, request.value.stepId);
            && (w.log[i - 2].payload == AskPayload(run, w.state.turnIndex, input.observationJson) <==>
                  Observed(BeforeRequest(run, w)))
            && (request.value.stepId == StepName(w.state.turnIndex + 1) ==> input == TurnInput(run, w))
  {
    hide Inv, ActionOf, LastOf, ActiveRequest, Observe, Accepted, StateOf;
    RequestParts(run, w);
    NoStepVerifiedSince(run, w.log);
    ObserveSince(w.log, i);
    AcceptedPrefix(run, w.log, i);
    LastMove(run, w.log[..i]);
  }

  lemma RequestParts(run: Text, w: World)
    requires Inv(run, w) && w.state.status.Verifying?
    ensures Accepted(run, w.log) && StateOf(run, w.log) == w.state && RequestedFacts(run, w)
  {
    hide Accepted, StateOf, ActiveRequest, LastOf, EffectFacts, Honest;
    RequestIsActive(run, w);
  }

  lemma RecoveredCall(run: Text, w: World, i: int)
    requires Inv(run, w) && w.state.status.Verifying? && w.state.activeStepId.Some?
    requires IsLastMatch(w.log, RequestOfStep(w.state.activeStepId.value), i)
    ensures i >= 0 && ActiveRequest(run, w.log).Some? && w.log[i].payload.ToolRequested?
    ensures var p := w.log[i].payload;
            && IsText(p.toolCallId) && IsText(p.toolName) && IsText(p.argumentsJson)
            && CallOf(ActiveRequest(run, w.log).value) ==
               ToolCallAction(p.toolCallId.text, p.toolName.text, p.argumentsJson.text)
  {
    hide Inv, ActiveRequest, IsLastMatch;
    MatchBounds(w.log, RequestOfStep(w.state.activeStepId.value), i);
    StepRequestFound(run, w, i);
  }

  /** The verdict on the active step may be persisted exactly when it speaks. */
  lemma StepVerificationDecides(cfg: Config, run: Text, w: World, v: VerificationResult)
    requires Coherent(run, w) && w.state.status.Verifying? && w.state.activeStepId.Some?
    ensures var p := StepVerificationPayload(w.state.activeStepId.value, v);
            && Disciplined(run, w, p)
            && (CanTake(cfg, run, w, p, VerificationRest(v)) <==> Speaks(v))
            && (Speaks(v) ==>
                  var after := Appended(cfg, run, w, p, VerificationRest(v)).state;
                  && after.turnIndex == w.state.turnIndex + Bit(v.passed)
                  && if v.passed then after.status.Ready? else after.status.Failed?)
  {
    hide Coherent, Appended, CanTake, NamesAreTexts;
    CoherentShape(run, w);
    assert w.state.activeStepId != Some(Raw("")) by { NamesOf(w.state); }
    VerificationIsAcceptable(cfg, run, w, w.state.activeStepId.value, v);
    if Speaks(v) {
      AppendedMoves(cfg, run, w, StepVerificationPayload(w.state.activeStepId.value, v), VerificationRest(v));
    }
  }

  lemma NamesOf(s: RunState)
    requires NamesAreTexts(s)
    ensures s.activeStepId != Some(Raw("")) && s.activeToolCallId != Some(Raw("")) && s.activeModelInvocationId != Some(Raw(""))
  {
  }

  // ----- Tool calls -----

  /** The receipt is stored, the state is the new one, and it is VERIFYING exactly for a successful receipt. */
  ghost predicate Reported(w: World, request: ToolRequest, state: RunState, receipt: ToolReceipt) {
    && state == w.state && ActiveRequest(request.runId, w.log) == Some(request)
    && EffectName(request.runId, request.toolCallId) in w.receipts
    && w.receipts[EffectName(request.runId, request.toolCallId)] == receipt
    && (if receipt.outcome == SUCCEEDED then state.status.Verifying? else state.status.Failed?)
  }

  /** Where a tool call raises: either a retry would be unsafe, or the uninterrupted run ends here as well. */
  ghost predicate Halted(cfg: Config, run: Text, w: World, error: RuntimeError) {
    if error == UnsafeToolRetry then UnsafeOpenEffect(cfg, run, w) else Next(cfg, run, w).None?
  }

  lemma ReportIsAcceptable(cfg: Config, run: Text, w: World, request: ToolRequest, receipt: ToolReceipt)
    requires Coherent(run, w) && Recorded(cfg, run, w, request, receipt)
    ensures var p := ResultPayload(request.toolCallId, receipt);
            && Acceptable(cfg, run, w, p, ResultRest(receipt))
            && var v := Appended(cfg, run, w, p, ResultRest(receipt));
            && Follows(cfg, run, w, v) && Reported(v, request, v.state, receipt) && InCall(w, v)
  {
    hide Coherent, Acceptable, Appended, Follows, ActiveRequest, Next, ResultPayload, ResultRest, IntentOf, KindOf,
         InCall, CanTake;
    CallInForce(run, w);
    ReportIsNext(cfg, run, w, request);
    ResultIsAcceptable(cfg, run, w, request);
    FollowsStep(cfg, run, w);
    IntentNames(request);
    OwnIntent(run, w, request);
    var p, rest := ResultPayload(request.toolCallId, receipt), ResultRest(receipt);
    AcceptableIsTaken(cfg, run, w, p, rest);
    ResultMoves(cfg, run, w, request.toolCallId, receipt);
    RequestStaysInForce(cfg, run, w, p, rest);
    TurnStaysInCall(cfg, run, w, p, rest);
  }

  lemma AcceptableIsTaken(cfg: Config, run: Text, w: World, p: Payload, rest: seq<Val>)
    requires Acceptable(cfg, run, w, p, rest)
    ensures CanTake(cfg, run, w, p, rest) && Disciplined(run, w, p)
  {
    hide CanTake, Disciplined;
  }

  lemma ResultMoves(cfg: Config, run: Text, w: World, call: Name, receipt: ToolReceipt)
    requires CanTake(cfg, run, w, ResultPayload(call, receipt), ResultRest(receipt))
    ensures var v := Appended(cfg, run, w, ResultPayload(call, receipt), ResultRest(receipt));
            && v.receipts == w.receipts
            && IsCallEvent(ResultPayload(call, receipt)) && !ResultPayload(call, receipt).ToolRequested?
            && if receipt.outcome == SUCCEEDED then v.state.status.Verifying? else v.state.status.Failed?
  {
    hide CanTake, Appended;
    AppendedMoves(cfg, run, w, ResultPayload(call, receipt), ResultRest(receipt));
  }

  /** The executor moves no turn, refuses an open unsafe effect, and halts where it raises. */
  lemma ExecutionInTurn(cfg: Config, run: Text, request: ToolRequest, a: Storage, b: Storage, r: Outcome<ToolReceipt>)
    requires MayExecute(run, WorldIn(a, run), request) && b.tables == a.tables
    requires Executed(cfg.registry(request.toolName), cfg.runner, IntentOf(request), LogIn(a, run), a.fx, b.fx, r)
    ensures InCall(WorldIn(a, run), WorldIn(b, run))
    ensures UnsafeOpenEffect(cfg, run, WorldIn(a, run)) ==> r == Raised(UnsafeToolRetry)
    ensures r.Raised? ==> WorldIn(b, run) == WorldIn(a, run) && Halted(cfg, run, WorldIn(a, run), r.error)
  {
    hide IntentOf, ActiveRequest, StateOf, EventsOf, RowsIn, ReceiptOf, Observe, Next;
    IntentNames(request);
    if r.Raised? {
      RaisedExecution(cfg, run, WorldIn(a, run), request, a.fx, b.fx, r);
    }
  }

  /** Starting an authorized call is the next step; where the run keeps its promises no effect of it is open yet. */
  lemma StartsRun(cfg: Config, run: Text, w: World, request: ToolRequest)
    requires Coherent(run, w) && w.state.status.ToolReady? && ActiveRequest(run, w.log) == Some(request)
    ensures var p := ToolStarted(Str(request.toolCallId));
            && Acceptable(cfg, run, w, p, [])
            && var v := Appended(cfg, run, w, p, []);
            && Follows(cfg, run, w, v) && MayExecute(run, v, request) && InCall(w, v)
            && (Inv(run, w) ==> !UnsafeOpenEffect(cfg, run, v))
  {
    hide Coherent, Acceptable, Appended, Follows, ActiveRequest, KindOf, DecisionPayload, NextWhenRunning,
         NextWhenVerifying, InCall, CanTake, TurnFacts, EffectFacts;
    var p := ToolStarted(Str(request.toolCallId));
    CallInForce(run, w);
    StartIsAcceptable(cfg, run, w, request);
    AcceptableIsTaken(cfg, run, w, p, []);
    AppendedMoves(cfg, run, w, p, []);
    TurnStaysInCall(cfg, run, w, p, []);
    LastOfAppended(cfg, run, w, p, []);
    RequestStaysInForce(cfg, run, w, p, []);
    FollowsStep(cfg, run, w);
    OwnIntent(run, w, request);
    if Inv(run, w) { NothingOpen(run, w); }
  }

  /** Only a running tool has an effect in progress. */
  lemma NothingOpen(run: Text, w: World)
    requires Inv(run, w) && !w.state.status.ToolRunning? && !w.state.status.Cancelled?
    ensures forall id :: id in w.intents && w.intents[id].runId == run ==> id in w.receipts
  {
    hide Coherent, TurnFacts, Evidence;
  }

  // ----- Tool requests -----

  datatype ToolResultKind = EXECUTED | DENIED | AWAITING_GATE | GATE_RETRY | BLOCKED | REJECTED

  datatype ToolResult = ToolResult(outcome: ToolResultKind, state: RunState, authorization: Option<Decision>,
                                   proposal: Option<GateProposal>, evaluation: Option<GateEvaluation>,
                                   attempt: Option<int>, receipt: Option<ToolReceipt>)

  function BuildProposal(request: ToolRequest, mode: Mode, paths: Text, reasons: Val, revision: nat): GateProposal {
    var digest := ProposalDigest(request, mode, paths, revision);
    GateProposal(GateReference(request.runId, request.toolCallId, digest, revision),
                 request.stepId, request.toolName, request.argumentsJson, ModeText(mode), reasons)
  }

  /** The proposal shows the request as it is, with the mode and the reasons of the decision that escalated it. */
  predicate Shows(proposal: GateProposal, request: ToolRequest, mode: Mode, paths: Text, reasons: Val, revision: nat) {
    && proposal.reference.runId == request.runId && proposal.reference.toolCallId == request.toolCallId
    && proposal.reference.revision == revision
    && proposal.reference.proposalDigest == ProposalDigest(request, mode, paths, revision)
    && proposal.stepId == request.stepId && proposal.toolName == request.toolName
    && proposal.argumentsJson == request.argumentsJson
    && proposal.mode == ModeText(mode) && proposal.reasons == reasons
  }

  lemma BuiltShows(request: ToolRequest, mode: Mode, paths: Text, reasons: Val, revision: nat)
    ensures Shows(BuildProposal(request, mode, paths, reasons, revision), request, mode, paths, reasons, revision)
  {
  }

  /**
   * The gate has just been opened for the proposal: it waits for the first answer, on the terms of the decision, and
   * the stored proposal is read back as it is, unless its reasons are malformed.
   */
  ghost predicate GateOpened(cfg: Config, w: World, request: ToolRequest, proposal: GateProposal, mode: Mode, paths: Text,
                             reasons: Val, revision: nat)
  {
    && Shows(proposal, request, mode, paths, reasons, revision)
    && ReferenceIsActive(w.state, proposal.reference) && IsFresh(cfg, w.state, mode) && WaitsOn(w.state, request, mode, paths)
    && ProposalInForce(w, request, proposal.reference) ==
       if reasons.List? && (forall reason :: reason in reasons.items ==> reason.Str? && reason.text != Raw("")) then Some(proposal)
       else None
  }

  /** The result that a submission reports is what is durable, and what the policy decided. */
  ghost predicate Decided(cfg: Config, w: World, request: ToolRequest, result: ToolResult) {
    && result.state == w.state && result.authorization == Some(cfg.authorize(request))
    && result.evaluation.None? && result.attempt.None?
    && match cfg.authorize(request)
       case Deny(reason) =>
         && result.outcome == DENIED && result.proposal.None? && result.receipt.None?
         && w.state.status.Failed? && w.state.failureReason == Some(reason)
       case Escalate(mode, paths, reasons) =>
         && result.outcome == AWAITING_GATE && result.receipt.None?
         && result.proposal.Some? && GateOpened(cfg, w, request, result.proposal.value, mode, paths, reasons, 1)
       case Allow(_) =>
         && result.outcome == EXECUTED && result.proposal.None?
         && result.receipt.Some? && Reported(w, request, w.state, result.receipt.value)
  }

  /** The event right behind the given log, if there is one, is the policy's decision on the request. */
  ghost predicate DecisionFollows(cfg: Config, log: seq<Event>, after: seq<Event>, request: ToolRequest) {
    |log| < |after| ==>
      var e := after[|log|]; var call := Str(request.toolCallId);
      match cfg.authorize(request)
      case Deny(reason) => e.payload == ToolDenied(call, Str(reason)) && e.rest == []
      case Allow(detail) => e.payload == ToolAuthorized(call) && e.rest == [detail]
      case Escalate(mode, paths, reasons) =>
        && e.rest == [] && e.payload.ToolEscalated? && e.payload.toolCallId == call && e.payload.reasons == reasons
        && e.payload.proposalDigest == Str(ProposalDigest(request, mode, paths, 1)) && e.payload.revision == Int(1)
        && e.payload.ownershipMode == Str(ModeText(mode))
        && e.payload.maxAttempts == if mode == UserGate then Int(cfg.gateMaxAttempts) else Missing
  }

  lemma DecisionIsFollowed(cfg: Config, run: Text, w: World, v: World, request: ToolRequest)
    requires Appended(cfg, run, w, DecisionPayload(cfg, request), DecisionRest(cfg, request)).log <= v.log
    ensures DecisionFollows(cfg, w.log, v.log, request)
  {
    hide Appended;
    LastOfAppended(cfg, run, w, DecisionPayload(cfg, request), DecisionRest(cfg, request));
    assert v.log[|w.log|] == Stamp(cfg, run, |w.log|, DecisionPayload(cfg, request), DecisionRest(cfg, request));
  }

  /** From where its request is recorded, a submission goes on along the uninterrupted run. */
  ghost predicate Submitted(cfg: Config, run: Text, w: World, after: World, request: ToolRequest, r: Outcome<ToolResult>) {
    && Follows(cfg, run, Appended(cfg, run, w, RequestPayload(request), []), after)
    && (Inv(run, w) ==> Inv(run, after))
    && SameTurn(w, after) && InCall(Appended(cfg, run, w, RequestPayload(request), []), after)
    && DecisionFollows(cfg, Appended(cfg, run, w, RequestPayload(request), []).log, after.log, request)
    && (r.Done? ==> Decided(cfg, after, request, r.value))
    && (r.Raised? ==> Halted(cfg, run, after, r.error) && (Inv(run, w) ==> r.error != UnsafeToolRetry))
  }

  lemma SameTurnChain(w: World, v: World, x: World)
    requires SameTurn(w, v) && SameTurn(v, x)
    ensures SameTurn(w, x)
  {
    hide Observe;
  }


  /** Once a request is taken, it is the request in force. */
  lemma RequestOpens(cfg: Config, run: Text, w: World, request: ToolRequest)
    requires MayRequest(w.state, request) && request.runId == run
    ensures var v := Appended(cfg, run, w, RequestPayload(request), []);
            v.state.status.ToolPending? && ActiveRequest(run, v.log) == Some(request) && SameTurn(w, v)
  {
    hide Appended, ActiveRequest, KindOf, CanTake, RequestOf, SameTurn;
    var p := RequestPayload(request);
    RequestDecides(cfg, run, w, request);
    AppendedMoves(cfg, run, w, p, []);
    TurnStays(cfg, run, w, p, []);
    LastOfAppended(cfg, run, w, p, []);
    NewRequestIsActive(run, w.log, Stamp(cfg, run, |w.log|, p, []));
    RequestReadsBack(request);
  }

  lemma DecisionStep(cfg: Config, run: Text, w: World, request: ToolRequest)
    requires Coherent(run, w) && w.state.status.ToolPending? && ActiveRequest(run, w.log) == Some(request)
    ensures var p, rest := DecisionPayload(cfg, request), DecisionRest(cfg, request);
            && Acceptable(cfg, run, w, p, rest)
            && var v := Appended(cfg, run, w, p, rest);
            && Follows(cfg, run, w, v) && ActiveRequest(run, v.log) == Some(request) && InCall(w, v)
            && match cfg.authorize(request)
               case Deny(reason) => v.state.status.Failed? && v.state.failureReason == Some(reason)
               case Allow(_) => v.state.status.ToolReady?
               case Escalate(mode, paths, reasons) =>
                 GateOpened(cfg, v, request, BuildProposal(request, mode, paths, reasons, 1), mode, paths, reasons, 1)
  {
    hide Coherent, Acceptable, Appended, Follows, ActiveRequest, KindOf, NextWhenRunning, NextWhenVerifying, CanTake,
         InCall, BuildProposal, GateOpened;
    var p, rest := DecisionPayload(cfg, request), DecisionRest(cfg, request);
    CallInForce(run, w);
    OwnIntent(run, w, request);
    DecisionIsAcceptable(cfg, run, w, request);
    AcceptableIsTaken(cfg, run, w, p, rest);
    AppendedMoves(cfg, run, w, p, rest);
    RequestStaysInForce(cfg, run, w, p, rest);
    DecisionIsCallEvent(cfg, request);
    TurnStaysInCall(cfg, run, w, p, rest);
    assert Next(cfg, run, w) == Some(AppendEvent(p, rest));
    hide Next;
    FollowsStep(cfg, run, w);
    if cfg.authorize(request).Escalate? {
      EscalationOpens(cfg, run, w, request);
    } else if cfg.authorize(request).Deny? {
      DenialTellsReason(cfg, run, w, request);
    }
  }

  lemma DecisionIsCallEvent(cfg: Config, request: ToolRequest)
    ensures IsCallEvent(DecisionPayload(cfg, request))
  {
  }

  lemma DenialTellsReason(cfg: Config, run: Text, w: World, request: ToolRequest)
    requires cfg.authorize(request).Deny?
    requires CanTake(cfg, run, w, DecisionPayload(cfg, request), DecisionRest(cfg, request))
    ensures Appended(cfg, run, w, DecisionPayload(cfg, request), DecisionRest(cfg, request)).state.failureReason
            == Some(cfg.authorize(request).reason)
  {
    hide KindOf, RunTransition, ModelTransition, GateTransition;
  }

  /** The gate that an escalation opens is the one its proposal refers to, and waits for its first answer. */
  lemma EscalationOpens(cfg: Config, run: Text, w: World, request: ToolRequest)
    requires Coherent(run, w) && w.state.status.ToolPending? && w.state.activeToolCallId == Some(request.toolCallId)
    requires cfg.authorize(request).Escalate?
    requires CanTake(cfg, run, w, DecisionPayload(cfg, request), DecisionRest(cfg, request))
    ensures var d := cfg.authorize(request);
            GateOpened(cfg, Appended(cfg, run, w, DecisionPayload(cfg, request), DecisionRest(cfg, request)), request,
                       BuildProposal(request, d.mode, d.paths, d.reasons, 1), d.mode, d.paths, d.reasons, 1)
  {
    hide Coherent, CanTake, Appended, ProposalInForce, AreTexts, ReferenceIsActive, IsFresh;
    var d := cfg.authorize(request);
    var proposal := BuildProposal(request, d.mode, d.paths, d.reasons, 1);
    EscalatedFields(cfg, run, w, request);
    ProposalAfter(cfg, run, w, request, proposal.reference, DecisionPayload(cfg, request), []);
    OpenedGate(cfg, Appended(cfg, run, w, DecisionPayload(cfg, request), []), request, d.mode, d.paths, d.reasons, 1);
  }

  lemma EscalatedFields(cfg: Config, run: Text, w: World, request: ToolRequest)
    requires w.state.status.ToolPending? && w.state.activeToolCallId == Some(request.toolCallId)
    requires cfg.authorize(request).Escalate?
    requires CanTake(cfg, run, w, DecisionPayload(cfg, request), DecisionRest(cfg, request))
    ensures var d := cfg.authorize(request);
            var s := Appended(cfg, run, w, DecisionPayload(cfg, request), DecisionRest(cfg, request)).state;
            ReferenceIsActive(s, BuildProposal(request, d.mode, d.paths, d.reasons, 1).reference) && IsFresh(cfg, s, d.mode)
  {
    hide KindOf, RunTransition, ModelTransition, ToolTransition;
  }

  /** A gate that was opened for a built proposal. */
  lemma OpenedGate(cfg: Config, w: World, request: ToolRequest, mode: Mode, paths: Text, reasons: Val, revision: nat)
    requires var proposal := BuildProposal(request, mode, paths, reasons, revision);
             && ReferenceIsActive(w.state, proposal.reference) && IsFresh(cfg, w.state, mode)
             && ProposalInForce(w, request, proposal.reference) ==
                if AreTexts(reasons) then
                  Some(GateProposal(proposal.reference, request.stepId, request.toolName, request.argumentsJson, ModeText(mode),
                                    reasons))
                else None
    ensures GateOpened(cfg, w, request, BuildProposal(request, mode, paths, reasons, revision), mode, paths, reasons, revision)
  {
    hide ProposalInForce;
    BuiltShows(request, mode, paths, reasons, revision);
    WaitsOnProposal(w.state, request, BuildProposal(request, mode, paths, reasons, revision), mode, paths, reasons, revision);
  }

  // ----- Gates -----

  predicate IsUserGate(s: RunState) {
    s.activeGateMode == Some(Literal(USER_GATE))
  }

  /** The current policy still allows the request, or escalates it to the very proposal that waits. */
  predicate PolicyStands(cfg: Config, request: ToolRequest, r: GateReference) {
    match cfg.authorize(request)
    case Deny(_) => false
    case Allow(_) => true
    case Escalate(mode, paths, reasons) =>
      r.revision >= 0 && BuildProposal(request, mode, paths, reasons, r.revision).reference == r
  }

  /** The gate waits on the request with the given terms: who must decide, and on which files. */
  predicate WaitsOn(s: RunState, request: ToolRequest, mode: Mode, paths: Text) {
    && s.activeGateRevision.Some? && s.activeGateRevision.value >= 0
    && s.activeGateProposalDigest == Some(ProposalDigest(request, mode, paths, s.activeGateRevision.value))
    && s.activeGateMode == Some(ModeText(mode))
  }

  /** The policy allows the call by now, or still escalates it on the same terms. */
  predicate KeepsTerms(d: Decision, mode: Mode, paths: Text) {
    d.Allow? || (d.Escalate? && d.mode == mode && d.paths == paths)
  }

  /** The gate that waits for a proposal waits on the terms of the proposal. */
  lemma WaitsOnProposal(s: RunState, request: ToolRequest, proposal: GateProposal, mode: Mode, paths: Text, reasons: Val,
                        revision: nat)
    requires Shows(proposal, request, mode, paths, reasons, revision)
    requires ReferenceIsActive(s, proposal.reference) && s.activeGateMode == Some(ModeText(mode))
    ensures WaitsOn(s, request, mode, paths)
  {
  }

  /** In a run that keeps its promises the gate waits on the request in force, on one pair of terms. */
  lemma GateHasTerms(run: Text, w: World) returns (mode: Mode, paths: Text)
    requires Inv(run, w) && w.state.status.AwaitingGate?
    ensures ActiveRequest(run, w.log).Some? && WaitsOn(w.state, ActiveRequest(run, w.log).value, mode, paths)
  {
    hide ActiveRequest, Coherent, EffectFacts, RequestedFacts;
    var digest := w.state.activeGateProposalDigest.value;
    mode, paths := digest.mode, digest.paths;
  }

  /**
   * Where the gate waits on some terms, an approval or an answer under the current policy goes on if and only if
   * the policy keeps those terms; an approval is for a pair gate, an answer for a user gate.
   */
  lemma GateKeepsTerms(cfg: Config, run: Text, w: World, r: GateReference, mode: Mode, paths: Text)
    requires GateStands(run, w, r) && r.runId == run
    requires Coherent(run, w) && WaitsOn(w.state, ActiveRequest(run, w.log).value, mode, paths)
    ensures var d := cfg.authorize(ActiveRequest(run, w.log).value);
            && (MayResolve(cfg, run, w, r, true) <==> mode == Pair && KeepsTerms(d, mode, paths))
            && (MayAnswer(cfg, run, w, r) <==>
                  mode == UserGate && KeepsTerms(d, mode, paths)
                  && ProposalInForce(w, ActiveRequest(run, w.log).value, r).Some?)
  {
    hide ActiveRequest, Coherent, ProposalInForce, ProposalDigest;
    GateIsToolPhase(run, w, r);
    var request := ActiveRequest(run, w.log).value;
    match cfg.authorize(request)
    case Escalate(m, p, _) =>
      if PolicyStands(cfg, request, r) {
        ProposalDigestBinds(request, m, p, r.revision, request, mode, paths, r.revision);
      }
    case _ =>
  }

  function ApprovalPayload(r: GateReference): Payload {
    GateApproved(Str(r.toolCallId), Str(r.proposalDigest), Int(r.revision))
  }

  function RejectionPayload(r: GateReference, reason: Name): Payload {
    GateRejected(Str(r.toolCallId), Str(r.proposalDigest), Int(r.revision), Str(reason))
  }

  /** The waiting gate is the referenced one, and its request can be rebuilt. */
  ghost predicate GateStands(run: Text, w: World, r: GateReference) {
    ReferenceIsActive(w.state, r) && ActiveRequest(run, w.log).Some?
  }

  ghost predicate MayResolve(cfg: Config, run: Text, w: World, r: GateReference, approve: bool) {
    && GateStands(run, w, r)
    && (approve ==> !IsUserGate(w.state) && PolicyStands(cfg, ActiveRequest(run, w.log).value, r))
  }

  ghost predicate MayAnswer(cfg: Config, run: Text, w: World, r: GateReference) {
    && GateStands(run, w, r) && IsUserGate(w.state)
    && PolicyStands(cfg, ActiveRequest(run, w.log).value, r)
    && ProposalInForce(w, ActiveRequest(run, w.log).value, r).Some?
  }

  ghost predicate MayRevise(cfg: Config, run: Text, w: World, r: GateReference) {
    GateStands(run, w, r) && r.revision >= 1 && cfg.authorize(ActiveRequest(run, w.log).value).Escalate?
  }

  /** The result reports the receipt of the request that was in force before the gate was cleared. */
  ghost predicate ReportedFor(cfg: Config, run: Text, before: World, w: World, result: ToolResult,
                              evaluation: Option<GateEvaluation>, attempt: Option<int>)
  {
    var request := ActiveRequest(run, before.log);
    && request.Some? && result.receipt.Some?
    && result == ToolResult(EXECUTED, w.state, Some(cfg.authorize(request.value)), None, evaluation, attempt,
                            result.receipt)
    && Reported(w, request.value, w.state, result.receipt.value)
  }

  /** After its gate was cleared in `cleared`, a call goes on along the uninterrupted run. */
  ghost predicate WentOn(cfg: Config, run: Text, before: World, cleared: World, after: World, r: Outcome<ToolResult>,
                         evaluation: Option<GateEvaluation>, attempt: Option<int>)
  {
    && Follows(cfg, run, cleared, after)
    && (Inv(run, before) ==> Inv(run, cleared))
    && (r.Done? ==> ReportedFor(cfg, run, before, after, r.value, evaluation, attempt))
    && (r.Raised? ==> Halted(cfg, run, after, r.error) && (Inv(run, before) ==> r.error != UnsafeToolRetry))
  }

  /**
   * One answer is persisted as the next attempt at the waiting proposal; a retry at the last attempt is a
   * block; only a pass goes on to the tool, with the request that waited.
   */
  ghost predicate Answered(cfg: Config, run: Text, w: World, r: GateReference, actor: Name, answer: Text,
                           after: World, outcome: Outcome<ToolResult>)
    requires MayAnswer(cfg, run, w, r)
  {
    var request := ActiveRequest(run, w.log).value;
    var proposal := ProposalInForce(w, request, r).value;
    && w.state.activeGateMaxAttempts.Some?
    && var attempt, limit := w.state.activeGateAttempts + 1, w.state.activeGateMaxAttempts.value;
    && var e := Settled(cfg.evaluateGate(proposal, answer), attempt, limit);
    && var evaluated := Appended(cfg, run, w, EvaluationPayload(r, attempt, limit, e), [Str(actor), Str(answer)]);
    match e.outcome
    case Passes => WentOn(cfg, run, w, evaluated, after, outcome, Some(e), Some(attempt))
    case _ =>
      && after == evaluated && (Inv(run, w) ==> Inv(run, after))
      && (if e.outcome == Retries then WaitsAgain(w.state, after.state) && ProposalInForce(after, request, r) == Some(proposal)
          else after.state.status.Failed? && after.state.failureReason == Some(e.reason))
      && (outcome == Crashed
          || outcome == Done(ToolResult(if e.outcome == Retries then GATE_RETRY else BLOCKED, after.state,
                                        Some(cfg.authorize(request)), Some(proposal), Some(e), Some(attempt), None)))
  }

  /**
   * What one answer leads to, by what the evaluator says of it: as long as attempts are left a retry waits for the next
   * one, and the last retry fails the run like a block.
   */
  lemma AnswerDecides(cfg: Config, run: Text, w: World, r: GateReference, actor: Name, answer: Text, after: World,
                      outcome: Outcome<ToolResult>)
    requires MayAnswer(cfg, run, w, r) && Answered(cfg, run, w, r, actor, answer, after, outcome)
    ensures var e := cfg.evaluateGate(ProposalInForce(w, ActiveRequest(run, w.log).value, r).value, answer);
            var attempt := w.state.activeGateAttempts + 1;
            && w.state.activeGateMaxAttempts.Some?
            && match e.outcome
               case Passes => !outcome.Done? || (outcome.value.outcome == EXECUTED && outcome.value.receipt.Some?)
               case Blocks => after.state.status.Failed? && after.state.failureReason == Some(e.reason)
               case Retries =>
                 if attempt < w.state.activeGateMaxAttempts.value then
                   && WaitsAgain(w.state, after.state)
                   && (outcome.Done? ==> outcome.value.outcome == GATE_RETRY && outcome.value.attempt == Some(attempt))
                 else
                   && after.state.status.Failed? && after.state.failureReason == Some(AttemptLimit(e.reason))
                   && (outcome.Done? ==> outcome.value.outcome == BLOCKED)
  {
    hide Inv, Follows, Reported, Halted, Appended, EvaluationPayload, ActiveRequest, ProposalInForce,
         PolicyStands, ReferenceIsActive, WaitsAgain;
  }

  lemma SubmittedKeeps(cfg: Config, run: Text, w: World, after: World, request: ToolRequest, r: Outcome<ToolResult>)
    requires Submitted(cfg, run, w, after, request, r)
    ensures Inv(run, w) ==> Inv(run, after)
  {
    hide Inv, Follows, Appended, Decided, Halted, SameTurn;
  }

  lemma WentOnKeeps(cfg: Config, run: Text, before: World, cleared: World, after: World, r: Outcome<ToolResult>,
                    evaluation: Option<GateEvaluation>, attempt: Option<int>)
    requires WentOn(cfg, run, before, cleared, after, r, evaluation, attempt)
    ensures Inv(run, before) ==> Inv(run, after)
  {
    hide Inv, Follows, ReportedFor, Halted;
    FollowsKeeps(cfg, run, cleared, after);
  }

  lemma AnsweredKeeps(cfg: Config, run: Text, w: World, reference: GateReference, actor: Name, answer: Text, after: World,
                      r: Outcome<ToolResult>)
    requires MayAnswer(cfg, run, w, reference) && Answered(cfg, run, w, reference, actor, answer, after, r)
    ensures Inv(run, w) ==> Inv(run, after)
  {
    hide Inv, Follows, ReportedFor, Halted, Appended, EvaluationPayload, ActiveRequest, ProposalInForce, WentOn,
         PolicyStands, ReferenceIsActive;
    var request := ActiveRequest(run, w.log).value;
    var proposal := ProposalInForce(w, request, reference).value;
    var attempt, limit := w.state.activeGateAttempts + 1, w.state.activeGateMaxAttempts.value;
    var e := Settled(cfg.evaluateGate(proposal, answer), attempt, limit);
    if e.outcome == Passes {
      WentOnKeeps(cfg, run, w, Appended(cfg, run, w, EvaluationPayload(reference, attempt, limit, e), [Str(actor), Str(answer)]),
                  after, r, Some(e), Some(attempt));
    }
  }

  lemma GateIsToolPhase(run: Text, w: World, r: GateReference)
    requires Coherent(run, w) && ReferenceIsActive(w.state, r)
    ensures InToolPhase(w.state.status) && w.state.activeToolCallId == Some(r.toolCallId) && r.revision >= 1
    ensures ActiveRequest(run, w.log).Some? ==>
              ActiveRequest(run, w.log).value.toolCallId == r.toolCallId && ActiveRequest(run, w.log).value.runId == run
    ensures IsUserGate(w.state) ==> w.state.activeGateMaxAttempts.Some?
  {
    hide Coherent, ActiveRequest;
    ReferenceIsWellFormed(run, w, r);
    CoherentShape(run, w);
    if ActiveRequest(run, w.log).Some? {
      CallInForce(run, w);
      OwnIntent(run, w, ActiveRequest(run, w.log).value);
    }
  }

  lemma ApprovalClears(cfg: Config, run: Text, w: World, r: GateReference, request: ToolRequest, rest: seq<Val>)
    requires Coherent(run, w) && ReferenceIsActive(w.state, r) && !IsUserGate(w.state)
    requires ActiveRequest(run, w.log) == Some(request)
    ensures Acceptable(cfg, run, w, ApprovalPayload(r), rest)
    ensures var v := Appended(cfg, run, w, ApprovalPayload(r), rest);
            v.state.status.ToolReady? && ActiveRequest(run, v.log) == Some(request)
  {
    hide Coherent, Acceptable, Appended, ActiveRequest, KindOf;
    ApprovalIsAcceptable(cfg, run, w, r, rest);
    RequestStaysInForce(cfg, run, w, ApprovalPayload(r), rest);
  }

  lemma AnswerSettles(cfg: Config, run: Text, w: World, r: GateReference, request: ToolRequest,
                      e: GateEvaluation, rest: seq<Val>)
    requires Coherent(run, w) && ReferenceIsActive(w.state, r) && IsUserGate(w.state)
    requires w.state.activeGateMaxAttempts.Some? && ActiveRequest(run, w.log) == Some(request)
    ensures var attempt, limit := w.state.activeGateAttempts + 1, w.state.activeGateMaxAttempts.value;
            var settled := Settled(e, attempt, limit);
            var p := EvaluationPayload(r, attempt, limit, settled);
            && Acceptable(cfg, run, w, p, rest)
            && var v := Appended(cfg, run, w, p, rest);
            && ActiveRequest(run, v.log) == Some(request)
            && match settled.outcome
               case Passes => v.state.status.ToolReady?
               case Retries => WaitsAgain(w.state, v.state) && ProposalInForce(v, request, r) == ProposalInForce(w, request, r)
               case Blocks => v.state.status.Failed? && v.state.failureReason == Some(settled.reason)
  {
    hide Coherent, Acceptable, Appended, ActiveRequest, KindOf, ReferenceIsActive, CanTake, ProposalInForce, Settled;
    EvaluationIsAcceptable(cfg, run, w, r, e, rest);
    var attempt, limit := w.state.activeGateAttempts + 1, w.state.activeGateMaxAttempts.value;
    var p := EvaluationPayload(r, attempt, limit, Settled(e, attempt, limit));
    RequestStaysInForce(cfg, run, w, p, rest);
    AcceptableIsTaken(cfg, run, w, p, rest);
    if Settled(e, attempt, limit).outcome == Retries {
      ProposalAfter(cfg, run, w, request, r, p, rest);
    }
  }

  // ----- Snapshots -----

  lemma ReplayedSnapshot(run: Name, rows: seq<Row>)
    requires StoredRows(run, rows) && ReplayRun(run, EventsOf(rows)).Ok?
    ensures SnapshotOf(rows, ReplayRun(run, EventsOf(rows)).value).Some?
    ensures ReplayRun(run, EventsOf(rows)).value.runId == run
  {
    hide Fold;
    var log := EventsOf(rows);
    assert Accepted(run, log);
    AppliedIsLog(run, log);
    ReplayBooks(run, log);
    assert log[..|rows|] == log;
  }
}
