/**
 * Why the runtime's guards suffice: each one implies that the reducer accepts the event appended behind it,
 * although the event is persisted before it is validated (authorized_tool_runtime.py:233-411, 458-543, 593-709).
 */
module Guards {
  import opened Values
  import opened Events
  import opened RunStates
  import opened Reducer
  import opened Replay
  import opened Lifecycle
  import opened RunGrammar
  import opened Protocol
  import opened RunInvariant
  import opened Continuation

  // ----- Model actions -----

  /** The event that reports a spent budget. */
  lemma BudgetEndIsAcceptable(cfg: Config, run: Text, w: World)
    requires Coherent(run, w) && w.state.status.Ready? && !HasBudget(w.state)
    ensures var p := StepBudgetExhausted(Int(w.state.maxSteps.value), Int(w.state.turnIndex));
            && Acceptable(cfg, run, w, p, []) && Next(cfg, run, w) == Some(AppendEvent(p, []))
            && var v := Appended(cfg, run, w, p, []);
            v.state.status.Failed? && v.state.turnIndex == w.state.turnIndex
  {
    hide Coherent, Acceptable, Observe, Appended;
    CoherentShape(run, w);
    var p := StepBudgetExhausted(Int(w.state.maxSteps.value), Int(w.state.turnIndex));
    ReadyIsAcceptable(cfg, run, w);
    AppendedMoves(cfg, run, w, p, []);
  }

  /** The intent to ask may be persisted exactly in READY with room in the budget. */
  lemma AskDecides(cfg: Config, run: Text, w: World, observation: Name)
    ensures CanTake(cfg, run, w, AskPayload(run, w.state.turnIndex, observation), [])
            <==> w.state.status.Ready? && HasBudget(w.state)
  {
    hide KindOf, RunTransition, ToolTransition, GateTransition;
  }

  lemma AskIsAcceptable(cfg: Config, run: Text, w: World)
    requires Coherent(run, w) && w.state.status.Ready? && HasBudget(w.state)
    ensures var p := AskPayload(run, w.state.turnIndex, Observe(w.log));
            && Acceptable(cfg, run, w, p, []) && Next(cfg, run, w) == Some(AppendEvent(p, []))
            && var v := Appended(cfg, run, w, p, []);
            v.state.status.ModelPending? && SameTurn(w, v)
  {
    hide Coherent, Acceptable, Observe, Appended, SameTurn;
    CoherentShape(run, w);
    var p := AskPayload(run, w.state.turnIndex, Observe(w.log));
    ReadyIsAcceptable(cfg, run, w);
    AppendedMoves(cfg, run, w, p, []);
    TurnStays(cfg, run, w, p, []);
  }

  /** Any validated action may answer the active invocation. */
  lemma ProposalIsAcceptable(cfg: Config, run: Text, w: World, invocation: Text, action: ModelAction)
    requires Coherent(run, w) && w.state.status.ModelPending? && w.state.activeModelInvocationId == Some(invocation)
    ensures var p := ProposalPayload(invocation, w.state.turnIndex, action);
            && Acceptable(cfg, run, w, p, [])
            && var v := Appended(cfg, run, w, p, []);
            v.state.status.ActionPending? && SameTurn(w, v)
  {
    hide Coherent, Appended, SameTurn;
    CoherentShape(run, w);
    StepOfShape(w.state);
    hide Shape, WithinBudget, KindOf;
    var p := ProposalPayload(invocation, w.state.turnIndex, action);
    ProposalReadsBack(invocation, w.state.turnIndex, action);
    assert Acceptable(cfg, run, w, p, []);
    hide Acceptable;
    AppendedMoves(cfg, run, w, p, []);
    TurnStays(cfg, run, w, p, []);
  }

  lemma StepOfShape(s: RunState)
    requires Shape(s) && InModelPhase(s.status)
    ensures s.activeStepId == Some(StepName(s.turnIndex + 1))
    ensures s.status.ActionPending? ==> s.activeModelActionEventId.Some?
    ensures s.activeModelInvocationId.Some?
  {
  }

  lemma AskedIsActive(run: Text, w: World)
    requires Inv(run, w) && w.state.status.ModelPending?
    ensures AskedFacts(run, w)
  {
    hide Coherent, EffectFacts, AskedAt;
  }

  /** A model failure may be persisted exactly in READY and MODEL_PENDING. */
  lemma FailureDecides(cfg: Config, run: Text, w: World, reason: Name)
    ensures var p := ModelActionFailed(Str(reason));
            && Disciplined(run, w, p)
            && (CanTake(cfg, run, w, p, []) <==> w.state.status.Ready? || w.state.status.ModelPending?)
            && (CanTake(cfg, run, w, p, []) ==>
                  var v := Appended(cfg, run, w, p, []);
                  && v.state.status.Failed? && v.state.failureReason == Some(reason)
                  && v.state.turnIndex == w.state.turnIndex)
  {
    hide KindOf, RunTransition, ToolTransition, GateTransition, Disciplined;
    PlainIsDisciplined(run, w, ModelActionFailed(Str(reason)));
  }

  /** Under the guards of completion recording, the decision is taken exactly with room in the budget. */
  lemma CompletionDecides(cfg: Config, run: Text, w: World, answer: Name, c: CompletionResult, rest: seq<Val>)
    requires Coherent(run, w) && (w.state.status.ActionPending? || w.state.status.Ready?)
    ensures var p := CompletionPayload(w.state.activeModelActionEventId, StepName(w.state.turnIndex + 1), answer, c);
            && Disciplined(run, w, p)
            && (CanTake(cfg, run, w, p, rest) <==> HasBudget(w.state))
  {
    hide Shape, KindOf, Coherent, CanTake, Disciplined;
    if w.state.status.ActionPending? {
      PendingIsNamed(run, w);
    }
    PlainIsDisciplined(run, w, CompletionPayload(w.state.activeModelActionEventId, StepName(w.state.turnIndex + 1), answer, c));
    CompletionIsTaken(cfg, run, w, answer, c, rest);
  }

  lemma CompletionIsTaken(cfg: Config, run: Text, w: World, answer: Name, c: CompletionResult, rest: seq<Val>)
    requires w.state.status.Ready?
             || (w.state.status.ActionPending? && w.state.activeModelActionEventId.Some?
                 && w.state.activeModelActionEventId.value != Raw(""))
    ensures var p := CompletionPayload(w.state.activeModelActionEventId, StepName(w.state.turnIndex + 1), answer, c);
            CanTake(cfg, run, w, p, rest) <==> HasBudget(w.state)
  {
    hide KindOf, RunTransition, ToolTransition, GateTransition;
  }

  /** What the decision does. */
  lemma CompletionMoves(cfg: Config, run: Text, w: World, actionEvent: Option<Text>, step: Text, answer: Name,
                        c: CompletionResult, rest: seq<Val>)
    requires CanTake(cfg, run, w, CompletionPayload(actionEvent, step, answer, c), rest)
    ensures var v := Appended(cfg, run, w, CompletionPayload(actionEvent, step, answer, c), rest);
            && v.state.turnIndex == w.state.turnIndex + 1
            && if c.accepted then v.state.status.Completed? else v.state.status.Ready?
  {
    hide CanTake, Appended;
    AppendedMoves(cfg, run, w, CompletionPayload(actionEvent, step, answer, c), rest);
  }

  lemma PendingIsNamed(run: Text, w: World)
    requires Coherent(run, w) && w.state.status.ActionPending?
    ensures w.log != [] && w.state.activeModelActionEventId == Some(w.log[|w.log| - 1].eventId)
    ensures w.log[|w.log| - 1].payload.ModelActionProposed?
    ensures w.state.activeModelActionEventId.value != Raw("") && HasBudget(w.state)
  {
    hide Accepted, StateOf;
    CoherentShape(run, w);
    PendingIsLast(run, w.log);
    assert IsHonest(w.log[|w.log| - 1]);
  }

  /** A request may be persisted exactly in READY, or in ACTION_PENDING naming the pending event, with room. */
  predicate MayRequest(s: RunState, r: ToolRequest) {
    && HasBudget(s)
    && (|| s.status.Ready?
        || (&& s.status.ActionPending? && r.modelActionEventId.Some? && r.modelActionEventId.value != Raw("")
            && s.activeModelActionEventId == r.modelActionEventId))
  }

  lemma RequestDecides(cfg: Config, run: Text, w: World, r: ToolRequest)
    ensures CanTake(cfg, run, w, RequestPayload(r), []) <==> MayRequest(w.state, r)
    ensures Disciplined(run, w, RequestPayload(r))
  {
    hide KindOf, RunTransition, ModelTransition, GateTransition;
  }

  // ----- Verification -----

  /** What `record_verification` writes: evidence that speaks for the whole run. */
  function RunVerificationPayload(v: VerificationResult): Payload {
    if v.passed then VerificationSucceeded(Missing, Missing, v.checks, Str(v.summary))
    else VerificationFailed(Str(v.summary))
  }

  /** Run-scoped evidence may be persisted exactly in VERIFYING, and a failure only with a reason. */
  lemma RunVerificationDecides(cfg: Config, run: Text, w: World, v: VerificationResult)
    ensures var p := RunVerificationPayload(v);
            && Disciplined(run, w, p)
            && (CanTake(cfg, run, w, p, VerificationRest(v)) <==> w.state.status.Verifying? && Speaks(v))
            && (CanTake(cfg, run, w, p, VerificationRest(v)) ==>
                  var after := Appended(cfg, run, w, p, VerificationRest(v)).state;
                  if v.passed then after.status.Completed? else after.status.Failed? && after.failureReason == Some(v.summary))
  {
    hide KindOf, RunTransition, ModelTransition, GateTransition, Disciplined;
    PlainIsDisciplined(run, w, RunVerificationPayload(v));
  }

  // ----- The turn survives the events inside it -----

  /** Turn and observation are the same, and so is whatever is built from them. */
  ghost predicate SameTurn(w: World, v: World) {
    v.state.turnIndex == w.state.turnIndex && Observe(v.log) == Observe(w.log)
  }

  lemma SameInputs(run: Text, w: World, v: World, step: Text)
    requires SameTurn(w, v)
    ensures TurnInput(run, v) == TurnInput(run, w) && CallInput(run, v, step) == CallInput(run, w, step)
  {
  }

  lemma TurnStays(cfg: Config, run: Text, w: World, p: Payload, rest: seq<Val>)
    requires CanTake(cfg, run, w, p, rest) && !ConsumesTurn(p)
    ensures SameTurn(w, Appended(cfg, run, w, p, rest))
  {
    hide Transition, KindOf, Observe, CanTake;
    AppendedMoves(cfg, run, w, p, rest);
    ObserveStays(w.log, Stamp(cfg, run, |w.log|, p, rest));
  }

  // ----- Gate decisions -----

  /** The reference names the gate that the state waits at (authorized_tool_runtime.py:923-932). */
  predicate ReferenceIsActive(s: RunState, r: GateReference) {
    && s.status.AwaitingGate?
    && s.activeToolCallId == Some(r.toolCallId)
    && s.activeGateProposalDigest == Some(r.proposalDigest)
    && s.activeGateRevision == Some(r.revision)
  }

  /** The gate waits for its first answer; a user gate has the configured number of attempts, a pair gate none. */
  predicate IsFresh(cfg: Config, s: RunState, mode: Mode) {
    && s.status.AwaitingGate? && s.activeGateMode == Some(ModeText(mode)) && s.activeGateAttempts == 0
    && s.activeGateMaxAttempts == if mode == UserGate then Some(cfg.gateMaxAttempts) else None
  }

  lemma ReferenceIsWellFormed(run: Text, w: World, r: GateReference)
    requires Coherent(run, w) && ReferenceIsActive(w.state, r)
    ensures r.toolCallId != Raw("") && r.proposalDigest != Raw("") && r.revision >= 1
  {
    hide LastOf, Honest, OpenGate, Cleared, Newest, Revisions, EvaluationsOfNewest;
    CoherentShape(run, w);
    ReachablePhase(run, w.log);
  }

  lemma ApprovalIsAcceptable(cfg: Config, run: Text, w: World, r: GateReference, rest: seq<Val>)
    requires Coherent(run, w) && ReferenceIsActive(w.state, r) && w.state.activeGateMode != Some(Literal(USER_GATE))
    ensures Acceptable(cfg, run, w, GateApproved(Str(r.toolCallId), Str(r.proposalDigest), Int(r.revision)), rest)
    ensures var p := GateApproved(Str(r.toolCallId), Str(r.proposalDigest), Int(r.revision));
            Appended(cfg, run, w, p, rest).state.status.ToolReady?
  {
    hide Coherent, KindOf, RunTransition, ModelTransition, ToolTransition;
    ReferenceIsWellFormed(run, w, r);
    CoherentShape(run, w);
  }

  lemma RejectionIsAcceptable(cfg: Config, run: Text, w: World, r: GateReference, reason: Name, rest: seq<Val>)
    requires Coherent(run, w) && ReferenceIsActive(w.state, r)
    ensures var p := GateRejected(Str(r.toolCallId), Str(r.proposalDigest), Int(r.revision), Str(reason));
            && Acceptable(cfg, run, w, p, rest) && Appended(cfg, run, w, p, rest).state.status.Failed?
            && Appended(cfg, run, w, p, rest).state.failureReason == Some(reason)
  {
    hide Coherent, KindOf, RunTransition, ModelTransition, ToolTransition;
    ReferenceIsWellFormed(run, w, r);
  }

  function VerdictText(v: Verdict): Name {
    match v
    case Passes => Literal(PASS)
    case Retries => Literal(RETRY)
    case Blocks => Literal(BLOCK)
  }

  /** A retry beyond the last attempt is a block (authorized_tool_runtime.py:326-334). */
  function Settled(e: GateEvaluation, attempt: int, maxAttempts: int): GateEvaluation {
    if e.outcome == Retries && maxAttempts <= attempt then GateEvaluation(Blocks, AttemptLimit(e.reason)) else e
  }

  function EvaluationPayload(r: GateReference, attempt: int, maxAttempts: int, e: GateEvaluation): Payload {
    GateEvaluated(Str(r.toolCallId), Str(r.proposalDigest), Int(r.revision), Int(attempt), Int(maxAttempts),
                  Str(VerdictText(e.outcome)), Str(e.reason))
  }

  /** The gate waits for another answer to the same proposal, and one attempt has been used. */
  predicate WaitsAgain(s: RunState, t: RunState) {
    && t.status.AwaitingGate? && t.activeGateAttempts == s.activeGateAttempts + 1
    && t.activeGateMaxAttempts == s.activeGateMaxAttempts && t.activeGateMode == s.activeGateMode
    && t.activeToolCallId == s.activeToolCallId
    && t.activeGateProposalDigest == s.activeGateProposalDigest && t.activeGateRevision == s.activeGateRevision
  }

  lemma EvaluationIsAcceptable(cfg: Config, run: Text, w: World, r: GateReference, e: GateEvaluation, rest: seq<Val>)
    requires Coherent(run, w) && ReferenceIsActive(w.state, r) && w.state.activeGateMode == Some(Literal(USER_GATE))
    requires w.state.activeGateMaxAttempts.Some?
    ensures var attempt, limit := w.state.activeGateAttempts + 1, w.state.activeGateMaxAttempts.value;
            var settled := Settled(e, attempt, limit);
            var p := EvaluationPayload(r, attempt, limit, settled);
            && Acceptable(cfg, run, w, p, rest)
            && var after := Appended(cfg, run, w, p, rest).state;
            && (settled.outcome == Passes ==> after.status.ToolReady?)
            && (settled.outcome == Retries ==> WaitsAgain(w.state, after))
            && (settled.outcome == Blocks ==> after.status.Failed? && after.failureReason == Some(settled.reason))
  {
    hide Coherent, KindOf, RunTransition, ModelTransition, ToolTransition;
    ReferenceIsWellFormed(run, w, r);
    CoherentShape(run, w);
  }

  function RevisionPayload(cfg: Config, r: GateReference, request: ToolRequest, mode: Mode, paths: Text, reasons: Val): Payload
    requires r.revision >= 1
  {
    GateRevised(Str(r.toolCallId), Str(r.proposalDigest), Int(r.revision),
                Str(ProposalDigest(request, mode, paths, r.revision + 1)), Int(r.revision + 1),
                Str(ModeText(mode)), AttemptLimitOf(mode, cfg.gateMaxAttempts), reasons)
  }

  /** A revision is taken exactly when its digest is a new one. */
  lemma RevisionDecides(cfg: Config, run: Text, w: World, r: GateReference, request: ToolRequest,
                        mode: Mode, paths: Text, reasons: Val)
    requires Coherent(run, w) && ReferenceIsActive(w.state, r) && r.revision >= 1
    requires ActiveRequest(run, w.log) == Some(request)
    ensures var p := RevisionPayload(cfg, r, request, mode, paths, reasons);
            && Disciplined(run, w, p)
            && (CanTake(cfg, run, w, p, []) <==> ProposalDigest(request, mode, paths, r.revision + 1) != r.proposalDigest)
  {
    hide Coherent, CanTake, Disciplined, RevisionPayload, ProposalDigest, ActiveRequest;
    ReferenceIsWellFormed(run, w, r);
    RevisionIsTaken(cfg, run, w, r, request, mode, paths, reasons);
    RevisionIsDisciplined(cfg, run, w, r, request, mode, paths, reasons);
  }

  lemma RevisionIsTaken(cfg: Config, run: Text, w: World, r: GateReference, request: ToolRequest,
                        mode: Mode, paths: Text, reasons: Val)
    requires ReferenceIsActive(w.state, r) && r.revision >= 1
    requires r.toolCallId != Raw("") && r.proposalDigest != Raw("")
    ensures CanTake(cfg, run, w, RevisionPayload(cfg, r, request, mode, paths, reasons), [])
            <==> ProposalDigest(request, mode, paths, r.revision + 1) != r.proposalDigest
  {
    hide KindOf, RunTransition, ModelTransition, ToolTransition;
  }

  lemma RevisionIsDisciplined(cfg: Config, run: Text, w: World, r: GateReference, request: ToolRequest,
                              mode: Mode, paths: Text, reasons: Val)
    requires r.revision >= 1 && ActiveRequest(run, w.log) == Some(request)
    ensures Disciplined(run, w, RevisionPayload(cfg, r, request, mode, paths, reasons))
  {
    hide ResultOfReceipt, RequestOf, ActionOf, AskPayload, ActiveRequest;
  }

  /** Where the runtime opened the gate, the new digest is a new one because its revision is. */
  lemma RevisionIsNew(run: Text, w: World, r: GateReference, request: ToolRequest, mode: Mode, paths: Text)
    requires Inv(run, w) && ReferenceIsActive(w.state, r) && r.revision >= 1
    ensures ProposalDigest(request, mode, paths, r.revision + 1) != r.proposalDigest
  {
    hide Coherent, EffectFacts;
  }

  /** The gate that a revision leaves open is the one its new proposal refers to. */
  lemma RevisionOpens(cfg: Config, run: Text, w: World, r: GateReference, request: ToolRequest,
                      mode: Mode, paths: Text, reasons: Val)
    requires ReferenceIsActive(w.state, r) && r.revision >= 1
    requires CanTake(cfg, run, w, RevisionPayload(cfg, r, request, mode, paths, reasons), [])
    ensures var v := Appended(cfg, run, w, RevisionPayload(cfg, r, request, mode, paths, reasons), []);
            && v.state.status.AwaitingGate?
            && ReferenceIsActive(v.state, GateReference(request.runId, r.toolCallId,
                                                        ProposalDigest(request, mode, paths, r.revision + 1), r.revision + 1))
            && IsFresh(cfg, v.state, mode)
  {
    hide KindOf, RunTransition, ModelTransition, ToolTransition;
  }
}
