/** What holds of the durable world of a run at every point where its process may stop. */
module RunInvariant {
  import opened Values
  import opened Events
  import opened RunStates
  import opened Reducer
  import opened Replay
  import opened Lifecycle
  import opened RunGrammar
  import opened ToolEffects
  import opened Protocol

  // ----- The model turn that the log is in -----

  /** An adapter intent for the turn, on whatever observation its context carried. */
  predicate IsAskOf(run: Text, turn: nat, p: Payload) {
    p.ModelActionRequested? && IsText(p.observationJson) && p == AskPayload(run, turn, p.observationJson.text)
  }

  /** The event at q is the adapter intent of the current turn. */
  ghost predicate AskedAt(run: Text, w: World, q: int) {
    0 <= q < |w.log| && IsAskOf(run, w.state.turnIndex, w.log[q].payload)
  }

  /** The adapter intent at q carries the observation that the log holds. */
  ghost predicate AskedOn(w: World, q: int) {
    && 0 <= q < |w.log| && w.log[q].payload.ModelActionRequested?
    && w.log[q].payload.observationJson == Str(Observe(w.log))
  }

  /**
   * An intent or action that waits was begun on the log's own observation.  The loop always does so;
   * `begin_model_action` does not compare observations (authorized_tool_runtime.py:485-492).
   */
  ghost predicate Observed(w: World) {
    && (w.state.status.ModelPending? ==> AskedOn(w, |w.log| - 1))
    && (w.state.status.ActionPending? ==> AskedOn(w, |w.log| - 2))
  }

  ghost predicate AskedFacts(run: Text, w: World) {
    && AskedAt(run, w, |w.log| - 1)
    && w.state.activeModelInvocationId == Some(InvocationName(run, StepName(w.state.turnIndex + 1)))
  }

  ghost predicate ProposedFacts(run: Text, w: World) {
    && AskedAt(run, w, |w.log| - 2)
    && w.state.activeModelInvocationId == Some(InvocationName(run, StepName(w.state.turnIndex + 1)))
    && w.state.activeModelActionEventId == Some(w.log[|w.log| - 1].eventId)
    && w.log[|w.log| - 1].eventId != Raw("")
    && ActionOf(w.log[|w.log| - 1].payload).Some?
  }

  /**
   * The current tool request can be rebuilt and is about the active step.  If it was submitted for a proposed
   * action, it names that action, which answers the adapter intent of the current turn.
   */
  ghost predicate RequestedFacts(run: Text, w: World) {
    var i := LastOf(w.log, TOOL_REQUESTED);
    var request := ActiveRequest(run, w.log);
    && i >= 0 && request.Some?
    && w.state.activeStepId == Some(request.value.stepId)
    && (InToolPhase(w.state.status) ==> w.state.activeToolCallId == Some(request.value.toolCallId))
    && (i >= 1 && w.log[i - 1].payload.ModelActionProposed? ==>
          && AskedAt(run, w, i - 2)
          && request.value.modelActionEventId == Some(w.log[i - 1].eventId))
  }

  /** The digest is that of the request, for the mode and the paths that it was escalated with. */
  predicate NamesRequest(request: Option<ToolRequest>, digest: Text) {
    && request.Some? && digest.ProposalHash?
    && digest == ProposalDigest(request.value, digest.mode, digest.paths, digest.revision)
  }

  /** The waiting gate's digest is a proposal digest of the request in force, the gate's own revision and its mode. */
  ghost predicate GateNamed(request: Option<ToolRequest>, s: RunState) {
    && s.activeGateProposalDigest.Some? && NamesRequest(request, s.activeGateProposalDigest.value)
    && s.activeGateRevision == Some(s.activeGateProposalDigest.value.revision)
    && s.activeGateMode == Some(ModeText(s.activeGateProposalDigest.value.mode))
  }

  ghost predicate TurnFacts(run: Text, w: World) {
    && (w.state.status.AwaitingGate? ==> GateNamed(ActiveRequest(run, w.log), w.state))
    && (w.state.status.ModelPending? ==> AskedFacts(run, w))
    && (w.state.status.ActionPending? ==> ProposedFacts(run, w))
    && (InToolPhase(w.state.status) || w.state.status.Verifying? ==> RequestedFacts(run, w))
  }

  // ----- The tool effect that the log is in -----

  /** The intent of the current request is stored, and its receipt reports success. */
  ghost predicate Evidence(run: Text, w: World) {
    var request := ActiveRequest(run, w.log);
    && request.Some? && w.log != []
    && var intent := IntentOf(request.value);
    && w.log[|w.log| - 1].payload == ToolSucceeded(Str(request.value.toolCallId), Str(intent.effectId))
    && intent.effectId in w.intents && w.intents[intent.effectId] == intent
    && intent.effectId in w.receipts && w.receipts[intent.effectId].outcome == SUCCEEDED
  }

  /** An intent of this run without a receipt is the effect in progress, unless the run was cancelled. */
  ghost predicate OpenIntents(run: Text, w: World) {
    forall id :: id in w.intents && w.intents[id].runId == run && id !in w.receipts ==>
      || w.state.status.Cancelled?
      || (w.state.status.ToolRunning? && ActiveRequest(run, w.log).Some?
          && w.intents[id] == IntentOf(ActiveRequest(run, w.log).value))
  }

  ghost predicate EffectFacts(run: Text, w: World) {
    && GoodEffects(w.intents, w.receipts)
    && OpenIntents(run, w)
    && (w.state.status.Verifying? ==> Evidence(run, w))
  }

  ghost predicate Inv(run: Text, w: World) {
    Coherent(run, w) && TurnFacts(run, w) && EffectFacts(run, w)
  }

  // ----- What the runtime promises about the events it appends -----

  /** Beyond what the reducer checks: the events the loop and the gate operations append. */
  ghost predicate Disciplined(run: Text, w: World, p: Payload) {
    match p
    case ModelActionRequested(_, _, _, _) => IsAskOf(run, w.state.turnIndex, p)
    case ModelActionProposed(_, _, _, _, _, _, _, _) => ActionOf(p).Some?
    case ToolRequested(_, _, _, _, _) => RequestOf(run, p).Some?
    case ToolEscalated(_, digest, revision, mode, _, _) => NamesProposal(ActiveRequest(run, w.log), digest, revision, mode)
    case GateRevised(_, _, _, digest, revision, mode, _, _) =>
      NamesProposal(ActiveRequest(run, w.log), digest, revision, mode)
    case ToolSucceeded(_, _) => ResultOfReceipt(run, w, p)
    case ToolFailed(_, _) => ResultOfReceipt(run, w, p)
    case ToolTimedOut(_, _) => ResultOfReceipt(run, w, p)
    case _ => true
  }

  /** Decisions, failures and verdicts claim nothing beyond what the reducer checks. */
  lemma PlainIsDisciplined(run: Text, w: World, p: Payload)
    requires p.ModelActionFailed? || p.CompletionAccepted? || p.CompletionRejected? || p.VerificationSucceeded?
             || p.VerificationFailed?
    ensures Disciplined(run, w, p)
  {
  }

  lemma AskIsDisciplined(run: Text, w: World, observation: Name)
    ensures var p := AskPayload(run, w.state.turnIndex, observation);
            Disciplined(run, w, p) && p.ModelActionRequested? && p.observationJson == Str(observation)
  {
  }

  predicate NamesProposal(request: Option<ToolRequest>, digest: Val, revision: Val, mode: Val) {
    && digest.Str? && NamesRequest(request, digest.text)
    && revision == Int(digest.text.revision) && mode == Str(ModeText(digest.text.mode))
  }

  /** The event reports the stored receipt of the active request's stored intent. */
  ghost predicate ResultOfReceipt(run: Text, w: World, p: Payload) {
    var request := ActiveRequest(run, w.log);
    && request.Some?
    && var intent := IntentOf(request.value);
    && intent.effectId in w.intents && w.intents[intent.effectId] == intent
    && intent.effectId in w.receipts
    && p == ResultPayload(request.value.toolCallId, w.receipts[intent.effectId])
  }

  // ----- Appending keeps the facts -----

  lemma ObserveStays(log: seq<Event>, e: Event)
    ensures !IsStepVerification(e.payload) ==> Observe(log + [e]) == Observe(log)
    ensures IsStepVerification(e.payload) ==> Observe(log + [e]) == ObservationOf(e.payload)
  {
    assert (log + [e])[..|log|] == log;
  }

  lemma ActiveRequestStays(run: Text, log: seq<Event>, e: Event)
    requires !e.payload.ToolRequested?
    ensures LastOf(log + [e], TOOL_REQUESTED) == LastOf(log, TOOL_REQUESTED)
    ensures ActiveRequest(run, log + [e]) == ActiveRequest(run, log)
  {
    hide KindOf;
    assert (log + [e])[..|log|] == log;
    RequestStays(log + [e]);
  }

  lemma NewRequestIsActive(run: Text, log: seq<Event>, e: Event)
    requires e.payload.ToolRequested?
    ensures LastOf(log + [e], TOOL_REQUESTED) == |log|
    ensures ActiveRequest(run, log + [e]) == RequestOf(run, e.payload)
  {
    hide KindOf;
    KindNames(e.payload);
  }

  lemma AskedFields(s: RunState, e: Event)
    requires Transition(s, e).Some? && e.payload.ModelActionRequested?
    ensures IsText(e.payload.invocationId)
            && Transition(s, e).value.activeModelInvocationId == Some(e.payload.invocationId.text)
  {
    hide RunTransition, ToolTransition, GateTransition;
  }

  lemma ProposedFields(s: RunState, e: Event)
    requires Transition(s, e).Some? && e.payload.ModelActionProposed?
    ensures Transition(s, e).value.activeModelInvocationId == s.activeModelInvocationId
    ensures Transition(s, e).value.activeModelActionEventId == Some(e.eventId)
  {
    hide RunTransition, ToolTransition, GateTransition;
  }

  lemma RequestedFields(s: RunState, e: Event)
    requires Transition(s, e).Some? && e.payload.ToolRequested? && e.payload.stepId.Str?
    ensures IsText(e.payload.toolCallId)
            && Transition(s, e).value.activeToolCallId == Some(e.payload.toolCallId.text)
            && Transition(s, e).value.activeStepId == Some(e.payload.stepId.text)
  {
    hide RunTransition, ModelTransition, GateTransition;
  }

  /** A request made for a pending action names it. */
  lemma RequestNames(s: RunState, e: Event)
    requires Transition(s, e).Some? && e.payload.ToolRequested? && s.status.ActionPending?
    ensures IsText(e.payload.modelActionEventId)
            && s.activeModelActionEventId == Some(e.payload.modelActionEventId.text)
  {
    hide RunTransition, ModelTransition, GateTransition;
  }

  lemma CallStays(s: RunState, e: Event)
    requires Transition(s, e).Some? && InToolPhase(s.status) && InToolPhase(Transition(s, e).value.status)
    ensures Transition(s, e).value.activeToolCallId == s.activeToolCallId
  {
    hide RunTransition, ModelTransition;
    TransitionMoves(s, e);
  }

  lemma GateFields(request: Option<ToolRequest>, s: RunState, e: Event)
    requires Transition(s, e).Some? && Transition(s, e).value.status.AwaitingGate?
    requires s.status.AwaitingGate? ==> GateNamed(request, s)
    requires match e.payload
             case ToolEscalated(_, digest, revision, mode, _, _) => NamesProposal(request, digest, revision, mode)
             case GateRevised(_, _, _, digest, revision, mode, _, _) => NamesProposal(request, digest, revision, mode)
             case _ => true
    ensures GateNamed(request, Transition(s, e).value)
  {
    hide RunTransition, ModelTransition, ToolTransition, NamesRequest;
    TransitionMoves(s, e);
  }

  lemma TurnOfAsk(cfg: Config, run: Text, w: World, p: Payload, rest: seq<Val>)
    requires Transition(w.state, Stamp(cfg, run, |w.log|, p, rest)).Some?
    requires IsAskOf(run, w.state.turnIndex, p)
    ensures TurnFacts(run, Appended(cfg, run, w, p, rest))
  {
    hide Transition, KindOf, Observe, RequestedFacts, ProposedFacts;
    var e := Stamp(cfg, run, |w.log|, p, rest);
    AskedFields(w.state, e);
    TransitionMoves(w.state, e);
    ObserveStays(w.log, e);
  }

  lemma TurnOfProposal(cfg: Config, run: Text, w: World, p: Payload, rest: seq<Val>)
    requires Transition(w.state, Stamp(cfg, run, |w.log|, p, rest)).Some?
    requires w.state.status.ModelPending? && TurnFacts(run, w)
    requires p.ModelActionProposed? && ActionOf(p).Some?
    ensures TurnFacts(run, Appended(cfg, run, w, p, rest))
  {
    hide Transition, KindOf, Observe, RequestedFacts, ActionOf, AskPayload;
    var e := Stamp(cfg, run, |w.log|, p, rest);
    ProposedFields(w.state, e);
    TransitionMoves(w.state, e);
    ObserveStays(w.log, e);
  }

  lemma TurnOfRequest(cfg: Config, run: Text, w: World, p: Payload, rest: seq<Val>)
    requires Transition(w.state, Stamp(cfg, run, |w.log|, p, rest)).Some?
    requires TurnFacts(run, w) && p.ToolRequested? && Disciplined(run, w, p)
    requires w.log != [] && w.log[|w.log| - 1].payload.ModelActionProposed? ==> w.state.status.ActionPending?
    ensures TurnFacts(run, Appended(cfg, run, w, p, rest))
  {
    hide Transition, KindOf, Observe, ActionOf, AskPayload, LastOf, ActiveRequest;
    var e := Stamp(cfg, run, |w.log|, p, rest);
    RequestedFields(w.state, e);
    if w.state.status.ActionPending? {
      RequestNames(w.state, e);
    }
    TransitionMoves(w.state, e);
    ObserveStays(w.log, e);
    NewRequestIsActive(run, w.log, e);
  }

  /** Events inside a tool call, or outside any turn. */
  lemma TurnOfOther(cfg: Config, run: Text, w: World, p: Payload, rest: seq<Val>)
    requires Transition(w.state, Stamp(cfg, run, |w.log|, p, rest)).Some?
    requires TurnFacts(run, w) && Disciplined(run, w, p)
    requires !p.ModelActionRequested? && !p.ModelActionProposed? && !p.ToolRequested?
    ensures TurnFacts(run, Appended(cfg, run, w, p, rest))
  {
    hide Transition, KindOf, Observe, ActionOf, AskPayload, LastOf, ActiveRequest, Moves;
    var e := Stamp(cfg, run, |w.log|, p, rest);
    var t := Transition(w.state, e).value;
    TransitionMoves(w.state, e);
    LeavesOrStays(w.state.status, p, t.status);
    if t.status.AwaitingGate? {
      GateFields(ActiveRequest(run, w.log), w.state, e);
    }
    if InToolPhase(t.status) || t.status.Verifying? {
      if InToolPhase(t.status) { CallStays(w.state, e); }
      ObserveStays(w.log, e);
      ActiveRequestStays(run, w.log, e);
    }
  }

  lemma LeavesOrStays(from: Status, p: Payload, to: Status)
    requires Moves(from, p, to)
    requires !p.ModelActionRequested? && !p.ModelActionProposed? && !p.ToolRequested?
    ensures !to.ModelPending? && !to.ActionPending?
    ensures InToolPhase(to) || to.Verifying? ==>
              InToolPhase(from) && !ConsumesTurn(p) && !p.RunCreated? && !IsStepVerification(p)
  {
  }

  lemma ProposalIsPending(run: Text, w: World)
    requires Coherent(run, w) && (w.state.status.Ready? || w.state.status.ActionPending?)
    ensures w.log != [] && w.log[|w.log| - 1].payload.ModelActionProposed? ==> w.state.status.ActionPending?
  {
    hide Honest;
    if w.state.status.Ready? && w.log != [] {
      ReadyAfterNoProposal(run, w.log);
    }
  }

  lemma AppendKeepsTurn(cfg: Config, run: Text, w: World, p: Payload, rest: seq<Val>)
    requires Transition(w.state, Stamp(cfg, run, |w.log|, p, rest)).Some?
    requires Coherent(run, w) && TurnFacts(run, w) && Disciplined(run, w, p)
    ensures TurnFacts(run, Appended(cfg, run, w, p, rest))
  {
    hide Transition, KindOf, TurnFacts, Appended, ResultOfReceipt, Coherent, ActionOf, RequestOf;
    TransitionMoves(w.state, Stamp(cfg, run, |w.log|, p, rest));
    if p.ModelActionRequested? {
      TurnOfAsk(cfg, run, w, p, rest);
    } else if p.ModelActionProposed? {
      TurnOfProposal(cfg, run, w, p, rest);
    } else if p.ToolRequested? {
      ProposalIsPending(run, w);
      TurnOfRequest(cfg, run, w, p, rest);
    } else {
      TurnOfOther(cfg, run, w, p, rest);
    }
  }

  /** An event keeps the waiting turn on the log's own observation, if an adapter intent carries it. */
  lemma AppendKeepsObserved(cfg: Config, run: Text, w: World, p: Payload, rest: seq<Val>)
    requires Transition(w.state, Stamp(cfg, run, |w.log|, p, rest)).Some? && Observed(w)
    requires p.ModelActionRequested? ==> p.observationJson == Str(Observe(w.log))
    ensures Observed(Appended(cfg, run, w, p, rest))
  {
    hide Transition, KindOf, Observe, Moves, StepMoves;
    var e := Stamp(cfg, run, |w.log|, p, rest);
    TransitionMoves(w.state, e);
    MovesIntoModelPhase(w.state.status, p, Transition(w.state, e).value.status);
    ObserveStays(w.log, e);
  }

  lemma MovesIntoModelPhase(from: Status, p: Payload, to: Status)
    requires Moves(from, p, to)
    ensures to.ModelPending? <==> p.ModelActionRequested?
    ensures to.ActionPending? <==> p.ModelActionProposed?
    ensures p.ModelActionProposed? ==> from.ModelPending?
    ensures InModelPhase(to) ==> !IsStepVerification(p)
  {
  }

  /** What a move means for the effect in progress. */
  lemma EffectMoves(from: Status, p: Payload, to: Status)
    requires Moves(from, p, to)
    ensures to.Verifying? <==> p.ToolSucceeded?
    ensures from.ToolRunning? ==> p.ToolSucceeded? || p.ToolFailed? || p.ToolTimedOut? || to.Cancelled?
    ensures p.ToolSucceeded? || p.ToolFailed? || p.ToolTimedOut? ==> from.ToolRunning?
    ensures from.ToolRunning? ==> !p.ToolRequested?
  {
  }

  lemma AppendKeepsOpenIntents(cfg: Config, run: Text, w: World, p: Payload, rest: seq<Val>)
    requires Transition(w.state, Stamp(cfg, run, |w.log|, p, rest)).Some? && !IsTerminal(w.state.status)
    requires GoodEffects(w.intents, w.receipts) && OpenIntents(run, w) && Disciplined(run, w, p)
    ensures OpenIntents(run, Appended(cfg, run, w, p, rest))
  {
    hide Transition, KindOf, RequestOf, ActionOf, AskPayload, ActiveRequest, Moves, StepMoves;
    var e := Stamp(cfg, run, |w.log|, p, rest);
    TransitionMoves(w.state, e);
    EffectMoves(w.state.status, p, Transition(w.state, e).value.status);
    if w.state.status.ToolRunning? {
      ActiveRequestStays(run, w.log, e);
    }
  }

  /** A reported success is the evidence of the request in force. */
  lemma SuccessIsEvidence(run: Text, w: World, p: Payload, v: World)
    requires GoodEffects(w.intents, w.receipts) && p.ToolSucceeded? && ResultOfReceipt(run, w, p)
    requires v.log != [] && v.log[|v.log| - 1].payload == p && ActiveRequest(run, v.log) == ActiveRequest(run, w.log)
    requires v.intents == w.intents && v.receipts == w.receipts
    ensures Evidence(run, v)
  {
    hide ActiveRequest, IntentOf;
  }

  lemma AppendKeepsEvidence(cfg: Config, run: Text, w: World, p: Payload, rest: seq<Val>)
    requires Transition(w.state, Stamp(cfg, run, |w.log|, p, rest)).Some?
    requires GoodEffects(w.intents, w.receipts) && Disciplined(run, w, p)
    ensures var v := Appended(cfg, run, w, p, rest); v.state.status.Verifying? ==> Evidence(run, v)
  {
    hide Transition, KindOf, RequestOf, ActionOf, AskPayload, ActiveRequest, IntentOf, Moves, StepMoves, Evidence,
         GoodEffects, ResultOfReceipt;
    var e := Stamp(cfg, run, |w.log|, p, rest);
    TransitionMoves(w.state, e);
    EffectMoves(w.state.status, p, Transition(w.state, e).value.status);
    if p.ToolSucceeded? {
      ActiveRequestStays(run, w.log, e);
      SuccessIsEvidence(run, w, p, Appended(cfg, run, w, p, rest));
    }
  }

  lemma AppendKeepsEffects(cfg: Config, run: Text, w: World, p: Payload, rest: seq<Val>)
    requires Transition(w.state, Stamp(cfg, run, |w.log|, p, rest)).Some? && !IsTerminal(w.state.status)
    requires EffectFacts(run, w) && Disciplined(run, w, p)
    ensures EffectFacts(run, Appended(cfg, run, w, p, rest))
  {
    hide Transition, KindOf, OpenIntents, Evidence, Disciplined, GoodEffects;
    AppendKeepsOpenIntents(cfg, run, w, p, rest);
    AppendKeepsEvidence(cfg, run, w, p, rest);
  }

  lemma AppendKeepsInv(cfg: Config, run: Text, w: World, p: Payload, rest: seq<Val>)
    requires Inv(run, w) && !IsTerminal(w.state.status)
    requires Transition(w.state, Stamp(cfg, run, |w.log|, p, rest)).Some?
    requires Disciplined(run, w, p)
    ensures Inv(run, Appended(cfg, run, w, p, rest))
  {
    hide Transition, Coherent, TurnFacts, EffectFacts, Disciplined, Appended;
    CoherentAppend(cfg, run, w, p, rest);
    AppendKeepsTurn(cfg, run, w, p, rest);
    AppendKeepsEffects(cfg, run, w, p, rest);
  }

  // ----- Effects keep the facts -----

  lemma OnlyEffectsDiffer(run: Text, w: World, v: World)
    requires v.log == w.log && v.state == w.state
    requires Coherent(run, w) && TurnFacts(run, w)
    ensures Coherent(run, v) && TurnFacts(run, v)
  {
    hide ActiveRequest, Observe, AskPayload, ActionOf, LastOf, Accepted, StateOf, Honest;
  }

  lemma RequestIsActive(run: Text, w: World)
    requires TurnFacts(run, w) && (InToolPhase(w.state.status) || w.state.status.Verifying?)
    ensures ActiveRequest(run, w.log).Some? && RequestedFacts(run, w)
  {
    hide ActiveRequest, Observe, AskPayload, ActionOf, LastOf;
  }

  /** Saving the active request's intent while its tool is running. */
  lemma IntentKeepsInv(run: Text, w: World)
    requires Inv(run, w) && w.state.status.ToolRunning?
    ensures ActiveRequest(run, w.log).Some?
    ensures var intent := IntentOf(ActiveRequest(run, w.log).value);
            intent.effectId !in w.intents ==> Inv(run, w.(intents := w.intents[intent.effectId := intent]))
  {
    hide ActiveRequest, Coherent, TurnFacts, RequestedFacts, Evidence;
    RequestIsActive(run, w);
    var intent := IntentOf(ActiveRequest(run, w.log).value);
    OnlyEffectsDiffer(run, w, w.(intents := w.intents[intent.effectId := intent]));
  }

  lemma ReceiptKeepsInv(run: Text, w: World, receipt: ToolReceipt)
    requires Inv(run, w) && w.state.status.ToolRunning?
    requires receipt.effectId in w.intents && receipt.effectId !in w.receipts
    ensures Inv(run, w.(receipts := w.receipts[receipt.effectId := receipt]))
  {
    hide ActiveRequest, Coherent, TurnFacts, RequestedFacts, Evidence, IntentOf, ValidIntent;
    var v := w.(receipts := w.receipts[receipt.effectId := receipt]);
    OnlyEffectsDiffer(run, w, v);
    assert OpenIntents(run, v);
    hide OpenIntents;
    assert GoodEffects(v.intents, v.receipts);
  }

  /** The world of a run before its first event. */
  lemma EmptyInv(run: Text, intents: map<Text, ToolIntent>, receipts: map<Text, ToolReceipt>)
    requires run != Raw("") && GoodEffects(intents, receipts)
    requires forall id :: id in intents ==> intents[id].runId != run
    ensures Inv(run, World([], Initial(run), intents, receipts))
  {
  }
}
