/**
 * The scans by which the runtime finds its place again after a restart
 * (authorized_tool_runtime.py:545-591, 711-769, 857-921), and why they find the right events.
 */
module LogScans {
  import opened Values
  import opened Events
  import opened RunStates
  import opened Reducer
  import opened Replay
  import opened Lifecycle
  import opened RunGrammar
  import opened ToolEffects
  import opened Protocol
  import opened RunInvariant
  import opened Continuation
  import opened Guards

  /** What a scan looks for. */
  datatype Pattern =
    | RequestOfCall(call: Text)
    | RequestOfStep(step: Text)
    | AskOf(invocation: Text)
    | EventNamed(id: Text)
    | ProposalNamed(reference: GateReference)
    | AnySuccess
    | AnyStepVerification

  predicate Matches(e: Event, pattern: Pattern) {
    var p := e.payload;
    match pattern
    case RequestOfCall(call) => p.ToolRequested? && p.toolCallId == Str(call)
    case RequestOfStep(step) => p.ToolRequested? && p.stepId == Str(step)
    case AskOf(invocation) => p.ModelActionRequested? && p.invocationId == Str(invocation)
    case EventNamed(id) => e.eventId == id
    case ProposalNamed(r) =>
      && (p.ToolEscalated? || p.GateRevised?)
      && p.toolCallId == Str(r.toolCallId) && p.proposalDigest == Str(r.proposalDigest)
      && EqualsInt(p.revision, r.revision)
    case AnySuccess => p.ToolSucceeded?
    case AnyStepVerification => IsStepVerification(p)
  }

  /** The event at i matches and no later one does; -1 where none does. */
  ghost predicate IsLastMatch(log: seq<Event>, pattern: Pattern, i: int) {
    && -1 <= i < |log|
    && (i >= 0 ==> Matches(log[i], pattern))
    && forall k :: i < k < |log| ==> !Matches(log[k], pattern)
  }

  /** The index that a scan looks for. */
  function LastMatch(log: seq<Event>, pattern: Pattern): (i: int)
    ensures IsLastMatch(log, pattern, i)
  {
    if log == [] then -1
    else if Matches(log[|log| - 1], pattern) then |log| - 1
    else LastMatch(log[..|log| - 1], pattern)
  }

  lemma LastMatchIsUnique(log: seq<Event>, pattern: Pattern, i: int, j: int)
    requires IsLastMatch(log, pattern, i) && IsLastMatch(log, pattern, j)
    ensures i == j
  {
    hide Matches;
  }

  lemma MatchBounds(log: seq<Event>, pattern: Pattern, i: int)
    requires IsLastMatch(log, pattern, i)
    ensures -1 <= i < |log|
    ensures i >= 0 && pattern.AskOf? ==> log[i].payload.ModelActionRequested?
    ensures i >= 0 && (pattern.RequestOfCall? || pattern.RequestOfStep?) ==> log[i].payload.ToolRequested?
    ensures i >= 0 && pattern.RequestOfCall? ==> log[i].payload.toolCallId == Str(pattern.call)
    ensures i >= 0 && pattern.AnySuccess? ==> log[i].payload.ToolSucceeded?
    ensures i >= 0 && pattern.AnyStepVerification? ==> IsStepVerification(log[i].payload)
    ensures i >= 0 && pattern.ProposalNamed? ==> log[i].payload.ToolEscalated? || log[i].payload.GateRevised?
  {
  }

  /** Scan the reversed log. */
  method FindLast(log: seq<Event>, pattern: Pattern) returns (i: int)
    ensures IsLastMatch(log, pattern, i)
  {
    i := |log| - 1;
    while i >= 0
      invariant -1 <= i < |log|
      invariant forall k :: i < k < |log| ==> !Matches(log[k], pattern)
    {
      if Matches(log[i], pattern) {
        return;
      }
      i := i - 1;
    }
  }

  /** Scan the log forward for the latest adapter intent and the event of the pending action. */
  method FindPending(log: seq<Event>, invocation: Text, actionEvent: Text) returns (requested: int, proposed: int)
    ensures IsLastMatch(log, AskOf(invocation), requested)
    ensures IsLastMatch(log, EventNamed(actionEvent), proposed)
  {
    requested, proposed := -1, -1;
    for n := 0 to |log|
      invariant -1 <= requested < n && (requested >= 0 ==> Matches(log[requested], AskOf(invocation)))
      invariant forall k :: requested < k < n ==> !Matches(log[k], AskOf(invocation))
      invariant -1 <= proposed < n && (proposed >= 0 ==> Matches(log[proposed], EventNamed(actionEvent)))
      invariant forall k :: proposed < k < n ==> !Matches(log[k], EventNamed(actionEvent))
    {
      if Matches(log[n], AskOf(invocation)) {
        requested := n;
      }
      if Matches(log[n], EventNamed(actionEvent)) {
        proposed := n;
      }
    }
  }

  // ----- The observation -----

  lemma {:induction false} ObservationFound(log: seq<Event>, i: int)
    requires IsLastMatch(log, AnyStepVerification, i)
    ensures Observe(log) == if i < 0 then EmptyObjectJson else ObservationOf(log[i].payload)
  {
    if log != [] {
      var n := |log| - 1;
      if i == n {
        assert Matches(log[n], AnyStepVerification);
      } else {
        assert !Matches(log[n], AnyStepVerification);
        assert forall k :: i < k < n ==> log[..n][k] == log[k];
        ObservationFound(log[..n], i);
      }
    }
  }

  // ----- The request -----

  lemma LastRequestStands(log: seq<Event>, pattern: Pattern, i: int)
    requires pattern.RequestOfCall? || pattern.RequestOfStep?
    requires IsLastMatch(log, pattern, i)
    requires var k := LastOf(log, TOOL_REQUESTED); k >= 0 && Matches(log[k], pattern)
    ensures i == LastOf(log, TOOL_REQUESTED)
  {
    hide KindOf;
    var k := LastOf(log, TOOL_REQUESTED);
    assert i >= k;
    KindNames(log[i].payload);
  }

  /** Inside a tool call, the latest request of the active call is the one that opened the phase. */
  lemma RequestFound(run: Text, w: World, i: int)
    requires Coherent(run, w) && InToolPhase(w.state.status) && w.state.activeToolCallId.Some?
    requires IsLastMatch(w.log, RequestOfCall(w.state.activeToolCallId.value), i)
    ensures i == LastOf(w.log, TOOL_REQUESTED) >= 0 && w.log[i].payload.ToolRequested?
    ensures ActiveRequest(run, w.log) == RequestOf(run, w.log[i].payload)
  {
    hide Honest, IsLastMatch, LastOf, OpenGate, GateAgrees, Cleared, KindOf, Accepted, StateOf, RequestOf;
    ReachablePhase(run, w.log);
    LastRequestStands(w.log, RequestOfCall(w.state.activeToolCallId.value), i);
  }

  /** While a step is being verified, the latest request of that step is the request in force. */
  lemma StepRequestFound(run: Text, w: World, i: int)
    requires Inv(run, w) && w.state.status.Verifying? && w.state.activeStepId.Some?
    requires IsLastMatch(w.log, RequestOfStep(w.state.activeStepId.value), i)
    ensures i >= 0 && ActiveRequest(run, w.log) == RequestOf(run, w.log[i].payload)
    ensures ActiveRequest(run, w.log).Some? && ActiveRequest(run, w.log).value.stepId == w.state.activeStepId.value
  {
    hide Coherent, EffectFacts, AskedAt, ActionOf, IsLastMatch, LastOf;
    RequestIsActive(run, w);
    LastRequestStands(w.log, RequestOfStep(w.state.activeStepId.value), i);
  }

  // ----- The pending action -----

  /** The turn's adapter intent and the proposed action are the last two events. */
  lemma PendingFound(run: Text, w: World, asked: int, proposed: int)
    requires Inv(run, w) && w.state.status.ActionPending?
    requires w.state.activeModelInvocationId.Some? && w.state.activeModelActionEventId.Some?
    requires IsLastMatch(w.log, AskOf(w.state.activeModelInvocationId.value), asked)
    requires IsLastMatch(w.log, EventNamed(w.state.activeModelActionEventId.value), proposed)
    ensures asked == |w.log| - 2 && proposed == |w.log| - 1 && asked >= 0
    ensures IsAskOf(run, w.state.turnIndex, w.log[asked].payload)
    ensures ActionOf(w.log[proposed].payload).Some?
    ensures w.state.activeModelInvocationId.value == InvocationName(run, StepName(w.state.turnIndex + 1))
  {
    hide Coherent, EffectFacts, ActionOf, Observe;
    assert ProposedFacts(run, w);
    var n := |w.log|;
    assert Matches(w.log[n - 1], EventNamed(w.state.activeModelActionEventId.value));
    assert Matches(w.log[n - 2], AskOf(w.state.activeModelInvocationId.value));
    assert w.log[n - 1].payload.ModelActionProposed? by { ActionIsProposed(w.log[n - 1].payload); }
  }

  lemma ActionIsProposed(p: Payload)
    requires ActionOf(p).Some?
    ensures p.ModelActionProposed?
  {
  }

  // ----- The evidence -----

  /** In VERIFYING the last event is the success, and its effect names a stored successful receipt. */
  lemma EvidenceFound(run: Text, w: World, i: int)
    requires Inv(run, w) && w.state.status.Verifying?
    requires IsLastMatch(w.log, AnySuccess, i)
    ensures ActiveRequest(run, w.log).Some?
    ensures var id := IntentOf(ActiveRequest(run, w.log).value).effectId;
            && i == |w.log| - 1 >= 0 && w.log[i].payload.ToolSucceeded? && w.log[i].payload.effectId == Str(id)
            && id.EffectName? && id in w.receipts && w.receipts[id].outcome == SUCCEEDED
            && w.intents[id] == IntentOf(ActiveRequest(run, w.log).value)
  {
    hide Coherent, TurnFacts, ActiveRequest, OpenIntents;
    assert Evidence(run, w);
    assert Matches(w.log[|w.log| - 1], AnySuccess);
  }

  // ----- The proposal -----

  /** The proposal in force is the last event of the gate that opens or revises it. */
  lemma {:induction false} NewestIsLast(segment: seq<Event>) returns (m: nat)
    requires segment != [] && segment[0].payload.ToolEscalated?
    ensures m < |segment| && segment[m].payload == Newest(segment)
    ensures forall k :: m < k < |segment| ==> !segment[k].payload.GateRevised?
  {
    var n := |segment| - 1;
    if n == 0 || segment[n].payload.GateRevised? {
      m := n;
    } else {
      m := NewestIsLast(segment[..n]);
      assert forall k :: m < k < n ==> segment[..n][k] == segment[k];
    }
  }

  /** While the gate waits, the proposal found for the active reference is the newest one. */
  lemma ProposalFound(run: Text, w: World, r: GateReference, i: int)
    requires Coherent(run, w) && ReferenceIsActive(w.state, r)
    requires IsLastMatch(w.log, ProposalNamed(r), i)
    ensures var from := LastOf(w.log, TOOL_REQUESTED) + 1;
            && 0 <= from <= i && w.log[from..] != [] && w.log[from..][0].payload.ToolEscalated?
            && w.log[i].payload == Newest(w.log[from..])
            && w.log[i].payload.ownershipMode.Str?
            && w.state.activeGateMode == Some(w.log[i].payload.ownershipMode.text)
  {
    hide Honest, Accepted, StateOf, LastOf, Newest, Revisions, EvaluationsOfNewest, KindOf;
    ReachablePhase(run, w.log);
    var from := LastOf(w.log, TOOL_REQUESTED) + 1;
    var gate := w.log[from..];
    assert OpenGate(gate, r.toolCallId) && GateAgrees(w.state, gate);
    var m := NewestIsLast(gate);
    assert gate[m] == w.log[from + m];
    assert gate[m].payload.toolCallId == Str(r.toolCallId);
    assert Matches(w.log[from + m], ProposalNamed(r));
    forall k | from + m < k < |w.log| ensures !Matches(w.log[k], ProposalNamed(r)) {
      assert gate[k - from] == w.log[k];
    }
  }

  predicate AreTexts(reasons: Val) {
    reasons.List? && forall i :: 0 <= i < |reasons.items| ==> IsText(reasons.items[i])
  }

  /** What happened since the latest request. */
  function SinceRequest(log: seq<Event>): seq<Event> {
    log[LastOf(log, TOOL_REQUESTED) + 1..]
  }

  /** The proposal that the waiting gate is about, unless its stored reasons are malformed. */
  ghost function ProposalInForce(w: World, request: ToolRequest, r: GateReference): Option<GateProposal> {
    var gate := SinceRequest(w.log);
    if gate == [] || !gate[0].payload.ToolEscalated? then None
    else
      var newest := Newest(gate);
      if !AreTexts(newest.reasons) || !IsText(newest.ownershipMode) then None
      else Some(GateProposal(r, request.stepId, request.toolName, request.argumentsJson,
                             newest.ownershipMode.text, newest.reasons))
  }

  /** A new proposal takes force with its own reasons and mode; an answer that may be retried leaves the old one. */
  lemma ProposalAfter(cfg: Config, run: Text, w: World, request: ToolRequest, r: GateReference, p: Payload, rest: seq<Val>)
    requires Coherent(run, w) && CanTake(cfg, run, w, p, rest)
    requires p.ToolEscalated? || p.GateRevised? || IsOutcome(p, RETRY)
    ensures ProposalInForce(Appended(cfg, run, w, p, rest), request, r) ==
            if IsOutcome(p, RETRY) then ProposalInForce(w, request, r)
            else if !AreTexts(p.reasons) || !IsText(p.ownershipMode) then None
            else Some(GateProposal(r, request.stepId, request.toolName, request.argumentsJson, p.ownershipMode.text, p.reasons))
  {
    hide Coherent, LastOf, Newest, KindOf, Transition, Moves, StepMoves, AreTexts;
    var e := Stamp(cfg, run, |w.log|, p, rest);
    GateSoFar(run, w);
    TransitionMoves(w.state, e);
    NewestAfter(w.state, e, SinceRequest(w.log));
    assert (w.log + [e])[..|w.log|] == w.log;
    RequestStays(w.log + [e]);
  }

  lemma GateSoFar(run: Text, w: World)
    requires Coherent(run, w)
    ensures w.state.status.ToolPending? ==> SinceRequest(w.log) == []
    ensures w.state.status.AwaitingGate? ==> SinceRequest(w.log) != [] && SinceRequest(w.log)[0].payload.ToolEscalated?
  {
    hide Honest, Accepted, StateOf, LastOf, GateAgrees, Cleared, KindOf;
    ReachablePhase(run, w.log);
  }

  lemma NewestAfter(s: RunState, e: Event, segment: seq<Event>)
    requires Transition(s, e).Some? && Moves(s.status, e.payload, Transition(s, e).value.status)
    requires s.status.ToolPending? ==> segment == []
    requires s.status.AwaitingGate? ==> segment != [] && segment[0].payload.ToolEscalated?
    requires e.payload.ToolEscalated? || e.payload.GateRevised? || IsOutcome(e.payload, RETRY)
    ensures var after := segment + [e];
            && after[0].payload.ToolEscalated?
            && (IsOutcome(e.payload, RETRY) ==>
                  segment != [] && segment[0].payload.ToolEscalated? && Newest(after) == Newest(segment))
            && (!IsOutcome(e.payload, RETRY) ==> Newest(after) == e.payload)
  {
    hide Transition;
    assert (segment + [e])[..|segment|] == segment;
  }

  /** Reading the event that the scan found yields the proposal in force. */
  lemma ProposalRead(run: Text, w: World, request: ToolRequest, r: GateReference, i: int)
    requires Coherent(run, w) && ReferenceIsActive(w.state, r)
    requires IsLastMatch(w.log, ProposalNamed(r), i)
    ensures 0 <= i < |w.log| && (w.log[i].payload.ToolEscalated? || w.log[i].payload.GateRevised?)
    ensures var p := w.log[i].payload;
            ProposalInForce(w, request, r) ==
            if !AreTexts(p.reasons) || !IsText(p.ownershipMode) then None
            else Some(GateProposal(r, request.stepId, request.toolName, request.argumentsJson, p.ownershipMode.text, p.reasons))
  {
    hide Coherent, IsLastMatch, Newest, LastOf, ReferenceIsActive, AreTexts;
    ProposalFound(run, w, r, i);
    MatchBounds(w.log, ProposalNamed(r), i);
  }
}
