/** The order in which accepted logs arrange tool requests, gates, clearances and starts. */
module RunGrammar {
  import opened Values
  import opened Events
  import opened RunStates
  import opened Reducer
  import opened Replay
  import opened Lifecycle

  /** Position of the last event of a kind, or -1. */
  function LastOf(log: seq<Event>, kind: Kind): (i: int)
    ensures -1 <= i < |log|
    ensures i >= 0 ==> KindOf(log[i].payload) == kind
    ensures forall k :: i < k < |log| ==> KindOf(log[k].payload) != kind
  {
    if log == [] then -1
    else if KindOf(log[|log| - 1].payload) == kind then |log| - 1
    else LastOf(log[..|log| - 1], kind)
  }

  // ----- The grammar, stated on events alone -----

  /** Events that keep a gate open: a revision, or an answer that may be retried. */
  predicate KeepsOpen(p: Payload) {
    p.GateRevised? || IsOutcome(p, RETRY)
  }

  /** One escalation of the call, then revisions and retries. */
  ghost predicate OpenGate(segment: seq<Event>, call: Text) {
    && segment != []
    && segment[0].payload.ToolEscalated? && segment[0].payload.toolCallId == Str(call)
    && forall k :: 1 <= k < |segment| ==>
         KeepsOpen(segment[k].payload) && segment[k].payload.toolCallId == Str(call)
  }

  /** The proposal in force: the last revision, or the escalation itself. */
  function Newest(segment: seq<Event>): (p: Payload)
    requires segment != [] && segment[0].payload.ToolEscalated?
    ensures p.ToolEscalated? || p.GateRevised?
  {
    var last := segment[|segment| - 1].payload;
    if |segment| == 1 || last.GateRevised? then last else Newest(segment[..|segment| - 1])
  }

  /** The event clears the proposal by its newest digest and revision, in the way its mode demands. */
  ghost predicate Clears(p: Payload, newest: Payload, call: Text)
    requires newest.ToolEscalated? || newest.GateRevised?
  {
    && (p.GateApproved? || IsOutcome(p, PASS))
    && p.toolCallId == Str(call)
    && p.proposalDigest == newest.proposalDigest && p.revision == newest.revision
    && newest.ownershipMode == Str(Literal(if p.GateApproved? then PAIR else USER_GATE))
  }

  /** What may stand between a tool request and its start. */
  ghost predicate Cleared(segment: seq<Event>, call: Text) {
    || (|segment| == 1 && segment[0].payload == ToolAuthorized(Str(call)))
    || (&& |segment| >= 2
        && var n := |segment| - 1;
        && OpenGate(segment[..n], call)
        && Clears(segment[n].payload, Newest(segment[..n]), call))
  }

  /** Revisions of the gate so far. */
  function Revisions(segment: seq<Event>): nat {
    if segment == [] then 0
    else Revisions(segment[..|segment| - 1]) + Bit(segment[|segment| - 1].payload.GateRevised?)
  }

  /** Answers evaluated since the proposal in force was opened. */
  function EvaluationsOfNewest(segment: seq<Event>): nat {
    if segment == [] then 0
    else
      var last := segment[|segment| - 1].payload;
      if last.GateRevised? || last.ToolEscalated? then 0
      else EvaluationsOfNewest(segment[..|segment| - 1]) + Bit(last.GateEvaluated?)
  }

  /** The state's gate fields are those of the open gate's events. */
  ghost predicate GateAgrees(s: RunState, segment: seq<Event>)
    requires segment != [] && segment[0].payload.ToolEscalated?
  {
    var newest := Newest(segment);
    && IsText(newest.proposalDigest) && s.activeGateProposalDigest == Some(newest.proposalDigest.text)
    && IsPositive(newest.revision) && s.activeGateRevision == Some(newest.revision.number)
    && IsText(newest.ownershipMode) && s.activeGateMode == Some(newest.ownershipMode.text)
    && (newest.ownershipMode.text == Literal(USER_GATE) ==>
          IsPositive(newest.maxAttempts) && s.activeGateMaxAttempts == Some(newest.maxAttempts.number))
    && s.activeGateAttempts == EvaluationsOfNewest(segment)
    && IsPositive(segment[0].payload.revision)
    && newest.revision.number == segment[0].payload.revision.number + Revisions(segment)
  }

  /** Where an accepted log stands inside the current tool call. */
  ghost predicate Phase(log: seq<Event>, s: RunState) {
    var i, n := LastOf(log, TOOL_REQUESTED), |log|;
    && (InToolPhase(s.status) || s.status.Verifying? ==>
          i >= 0 && log[i].payload.ToolRequested? && IsText(log[i].payload.toolCallId))
    && (InToolPhase(s.status) ==> s.activeToolCallId == Some(log[i].payload.toolCallId.text))
    && (s.status.ToolPending? ==> i == n - 1)
    && (s.status.AwaitingGate? ==>
          OpenGate(log[i + 1..], log[i].payload.toolCallId.text) && GateAgrees(s, log[i + 1..]))
    && (s.status.ToolReady? ==> Cleared(log[i + 1..], log[i].payload.toolCallId.text))
    && (s.status.ToolRunning? ==>
          && i < n - 1 && log[n - 1].payload.ToolStarted?
          && Cleared(log[i + 1..n - 1], log[i].payload.toolCallId.text))
    && (s.status.Verifying? ==>
          && i < n - 2 && log[n - 1].payload.ToolSucceeded? && log[n - 2].payload.ToolStarted?
          && Cleared(log[i + 1..n - 2], log[i].payload.toolCallId.text))
    && (s.status.Completed? ==>
          || (n >= 1 && log[n - 1].payload.CompletionAccepted?)
          || (&& n >= 3
              && log[n - 1].payload.VerificationSucceeded? && log[n - 1].payload.scope != Str(Literal(STEP_SCOPE))
              && log[n - 2].payload.ToolSucceeded? && log[n - 3].payload.ToolStarted?))
  }

  lemma Extended(segment: seq<Event>, e: Event, call: Text)
    requires OpenGate(segment, call) && KeepsOpen(e.payload) && e.payload.toolCallId == Str(call)
    ensures OpenGate(segment + [e], call)
    ensures Newest(segment + [e]) == if e.payload.GateRevised? then e.payload else Newest(segment)
    ensures Revisions(segment + [e]) == Revisions(segment) + Bit(e.payload.GateRevised?)
    ensures EvaluationsOfNewest(segment + [e]) ==
            if e.payload.GateRevised? then 0 else EvaluationsOfNewest(segment) + 1
  {
    assert (segment + [e])[..|segment|] == segment;
  }

  lemma SliceSnoc(log: seq<Event>, from: nat)
    requires log != [] && from < |log|
    ensures log[from..] == log[..|log| - 1][from..] + [log[|log| - 1]]
  {
  }

  /** Events inside a call do not move the position of its request. */
  lemma RequestStays(log: seq<Event>)
    requires log != [] && !log[|log| - 1].payload.ToolRequested?
    ensures var n := |log| - 1; var i := LastOf(log[..n], TOOL_REQUESTED);
            && LastOf(log, TOOL_REQUESTED) == i
            && log[i + 1..] == log[..n][i + 1..] + [log[n]]
  {
    hide KindOf;
    KindNames(log[|log| - 1].payload);
    SliceSnoc(log, LastOf(log[..|log| - 1], TOOL_REQUESTED) + 1);
  }

  lemma EscalationAgrees(s: RunState, e: Event)
    requires e.payload.ToolEscalated? && GateTransition(s, e).Some?
    ensures var t := GateTransition(s, e).value;
            && s.activeToolCallId.Some? && OpenGate([e], s.activeToolCallId.value) && GateAgrees(t, [e])
            && t.activeToolCallId == s.activeToolCallId && t.status.AwaitingGate?
  {
    assert Newest([e]) == e.payload;
    assert [e][..0] == [];
    assert Revisions([e]) == 0;
    assert EvaluationsOfNewest([e]) == 0;
  }

  /** A revision or a retry names the proposal in force, and the state follows. */
  lemma OpenGateAgrees(s: RunState, e: Event, segment: seq<Event>, call: Text)
    requires GateTransition(s, e).Some? && GateTransition(s, e).value.status.AwaitingGate?
    requires s.status.AwaitingGate? && s.activeToolCallId == Some(call)
    requires OpenGate(segment, call) && GateAgrees(s, segment)
    ensures OpenGate(segment + [e], call) && GateAgrees(GateTransition(s, e).value, segment + [e])
    ensures GateTransition(s, e).value.activeToolCallId == s.activeToolCallId
  {
    assert KeepsOpen(e.payload);
    Extended(segment, e, call);
    assert (segment + [e])[0] == segment[0];
  }

  lemma ClearanceNamesNewest(s: RunState, e: Event, segment: seq<Event>, call: Text)
    requires GateTransition(s, e).Some? && GateTransition(s, e).value.status.ToolReady?
    requires s.status.AwaitingGate? && s.activeToolCallId == Some(call)
    requires OpenGate(segment, call) && GateAgrees(s, segment)
    ensures Cleared(segment + [e], call) && GateTransition(s, e).value.activeToolCallId == s.activeToolCallId
  {
    assert (segment + [e])[..|segment|] == segment;
  }

  /** Inside a call nothing but the call's own events moves the run, and they name the call. */
  lemma ToolStepNamesCall(s: RunState, e: Event)
    requires ToolTransition(s, e).Some?
    ensures var t := ToolTransition(s, e).value;
            && (e.payload.ToolRequested? ==>
                  IsText(e.payload.toolCallId) && t.activeToolCallId == Some(e.payload.toolCallId.text))
            && (e.payload.ToolAuthorized? ==>
                  s.activeToolCallId.Some? && e.payload == ToolAuthorized(Str(s.activeToolCallId.value)))
            && (t.status.ToolReady? || t.status.ToolRunning? ==> t.activeToolCallId == s.activeToolCallId)
  {
  }

  lemma PhaseOfStart(log: seq<Event>, s: RunState, t: RunState)
    requires log != [] && Phase(log[..|log| - 1], s) && Coarse(s, log[|log| - 1].payload, t)
    requires log[|log| - 1].payload.ToolStarted? && t.activeToolCallId == s.activeToolCallId
    ensures Phase(log, t)
  {
    hide KindOf, OpenGate, GateAgrees, Cleared, StepMoves;
    RequestStays(log);
    var n, i := |log| - 1, LastOf(log, TOOL_REQUESTED);
    assert log[i + 1..n] == log[..n][i + 1..];
  }

  lemma PhaseOfSuccess(log: seq<Event>, s: RunState, t: RunState)
    requires log != [] && Phase(log[..|log| - 1], s) && Coarse(s, log[|log| - 1].payload, t)
    requires log[|log| - 1].payload.ToolSucceeded?
    ensures Phase(log, t)
  {
    hide KindOf, OpenGate, GateAgrees, Cleared, StepMoves;
    RequestStays(log);
    var n, i := |log| - 1, LastOf(log, TOOL_REQUESTED);
    assert log[i + 1..n - 1] == log[..n][i + 1..n - 1];
  }

  lemma PhaseOfAuthorization(log: seq<Event>, s: RunState, t: RunState)
    requires log != [] && Phase(log[..|log| - 1], s) && Coarse(s, log[|log| - 1].payload, t)
    requires s.activeToolCallId.Some? && log[|log| - 1].payload == ToolAuthorized(Str(s.activeToolCallId.value))
    requires t.activeToolCallId == s.activeToolCallId
    ensures Phase(log, t)
  {
    hide KindOf, OpenGate, GateAgrees, StepMoves;
    RequestStays(log);
    assert log[LastOf(log, TOOL_REQUESTED) + 1..] == [log[|log| - 1]];
  }

  lemma PhaseOfRequest(log: seq<Event>, t: RunState)
    requires log != [] && log[|log| - 1].payload.ToolRequested? && t.status.ToolPending?
    requires IsText(log[|log| - 1].payload.toolCallId)
    requires t.activeToolCallId == Some(log[|log| - 1].payload.toolCallId.text)
    ensures Phase(log, t)
  {
    hide OpenGate, GateAgrees, Cleared;
  }

  /** Events after which the run is neither inside a call nor verifying. */
  lemma PhaseOfOtherStep(log: seq<Event>, s: RunState, t: RunState)
    requires log != [] && Phase(log[..|log| - 1], s) && Coarse(s, log[|log| - 1].payload, t)
    requires !InToolPhase(t.status) && !t.status.Verifying?
    ensures Phase(log, t)
  {
    hide KindOf, Phase, StepMoves;
    var n := |log| - 1;
    if t.status.Completed? && log[n].payload.VerificationSucceeded? {
      VerifyingEnds(log[..n], s);
    }
    PhaseOutsideCalls(log, t);
  }

  lemma VerifyingEnds(log: seq<Event>, s: RunState)
    requires Phase(log, s) && s.status.Verifying?
    ensures |log| >= 2 && log[|log| - 1].payload.ToolSucceeded? && log[|log| - 2].payload.ToolStarted?
  {
    hide KindOf, LastOf, Cleared;
  }

  lemma PhaseOutsideCalls(log: seq<Event>, t: RunState)
    requires !InToolPhase(t.status) && !t.status.Verifying?
    requires t.status.Completed? ==>
               || (|log| >= 1 && log[|log| - 1].payload.CompletionAccepted?)
               || (&& |log| >= 3
                   && log[|log| - 1].payload.VerificationSucceeded? && log[|log| - 1].payload.scope != Str(Literal(STEP_SCOPE))
                   && log[|log| - 2].payload.ToolSucceeded? && log[|log| - 3].payload.ToolStarted?)
    ensures Phase(log, t)
  {
    hide KindOf, LastOf, OpenGate, GateAgrees, Cleared;
  }

  lemma PhaseOfToolStep(log: seq<Event>, s: RunState)
    requires log != [] && GroupOf(log[|log| - 1].payload) == ToolGroup
    requires Phase(log[..|log| - 1], s)
    requires ToolTransition(s, log[|log| - 1]).Some?
    ensures Phase(log, ToolTransition(s, log[|log| - 1]).value)
  {
    hide ToolTransition, KindOf, Phase, StepMoves;
    var e := log[|log| - 1];
    var t := ToolTransition(s, e).value;
    ToolMoves(s, e);
    ToolStepNamesCall(s, e);
    if e.payload.ToolRequested? {
      PhaseOfRequest(log, t);
    } else if e.payload.ToolAuthorized? {
      PhaseOfAuthorization(log, s, t);
    } else if e.payload.ToolStarted? {
      PhaseOfStart(log, s, t);
    } else if e.payload.ToolSucceeded? {
      PhaseOfSuccess(log, s, t);
    } else {
      PhaseOfOtherStep(log, s, t);
    }
  }

  lemma PhaseOfGateStep(log: seq<Event>, s: RunState)
    requires log != [] && GroupOf(log[|log| - 1].payload) == GateGroup
    requires Phase(log[..|log| - 1], s) && Shape(s)
    requires GateTransition(s, log[|log| - 1]).Some?
    ensures Phase(log, GateTransition(s, log[|log| - 1]).value)
  {
    hide GateTransition, KindOf, OpenGate, GateAgrees, Cleared, StepMoves;
    var n := |log| - 1;
    var e := log[n];
    var t := GateTransition(s, e).value;
    GateMoves(s, e);
    RequestStays(log);
    var i := LastOf(log[..n], TOOL_REQUESTED);
    if e.payload.ToolEscalated? {
      EscalationAgrees(s, e);
      assert log[i + 1..] == [e];
    } else if t.status.AwaitingGate? {
      OpenGateAgrees(s, e, log[..n][i + 1..], s.activeToolCallId.value);
    } else if t.status.ToolReady? {
      ClearanceNamesNewest(s, e, log[..n][i + 1..], s.activeToolCallId.value);
    }
  }

  lemma CoarseMoves(s: RunState, p: Payload, t: RunState)
    requires Coarse(s, p, t)
    ensures Moves(s.status, p, t.status)
  {
  }

  lemma NeitherCallNorVerifying(from: Status, p: Payload, to: Status)
    requires Moves(from, p, to) && (GroupOf(p) == RunGroup || GroupOf(p) == ModelGroup)
    ensures !InToolPhase(to) && !to.Verifying?
  {
  }

  lemma PhaseIgnoresBooks(log: seq<Event>, t: RunState, e: Event)
    requires Phase(log, t)
    ensures Phase(log, Advance(t, e))
  {
    hide OpenGate, Cleared;
  }

  lemma {:induction false} ReachablePhase(run: Text, log: seq<Event>)
    requires Accepted(run, log)
    ensures Phase(log, StateOf(run, log))
  {
    if log != [] {
      hide Accepted, StateOf, Phase, RunTransition, ModelTransition, ToolTransition, GateTransition, Shape, Coarse,
           Moves, Advance;
      var n := |log| - 1;
      var s, e := StateOf(run, log[..n]), log[n];
      LastStep(run, log);
      ReachablePhase(run, log[..n]);
      ReachableShape(run, log[..n]);
      TransitionMoves(s, e);
      match GroupOf(e.payload) {
        case ToolGroup => PhaseOfToolStep(log, s);
        case GateGroup => PhaseOfGateStep(log, s);
        case _ =>
          assert Moves(s.status, e.payload, Transition(s, e).value.status) by { CoarseMoves(s, e.payload, Transition(s, e).value); }
          NeitherCallNorVerifying(s.status, e.payload, Transition(s, e).value.status);
          PhaseOfOtherStep(log, s, Transition(s, e).value);
      }
      PhaseIgnoresBooks(log, Transition(s, e).value, e);
    }
  }

  // ----- What the grammar says about runs -----

  /** Each event of an accepted log was one transition from the state before it. */
  lemma StepAt(run: Text, log: seq<Event>, k: nat)
    requires Accepted(run, log) && k < |log|
    ensures Accepted(run, log[..k]) && Transition(StateOf(run, log[..k]), log[k]).Some?
    ensures Phase(log[..k], StateOf(run, log[..k])) && Shape(StateOf(run, log[..k]))
  {
    hide Transition, Phase, Shape, Dense;
    AcceptedPrefix(run, log, k + 1);
    AcceptedPrefix(run, log, k);
    var before := log[..k + 1];
    assert before[..k] == log[..k] && before[k] == log[k];
    LastStep(run, before);
    ReachablePhase(run, log[..k]);
    ReachableShape(run, log[..k]);
  }

  /**
   * Between a tool request and its start stands exactly one authorization, or one escalation, any
   * revisions and retries, and one clearance of the newest proposal.
   */
  lemma StartedCallWasCleared(run: Text, log: seq<Event>, j: nat)
    requires Accepted(run, log) && j < |log| && log[j].payload.ToolStarted?
    ensures var i := LastOf(log[..j], TOOL_REQUESTED);
            && 0 <= i && log[i].payload.ToolRequested?
            && IsText(log[i].payload.toolCallId) && log[j].payload.toolCallId == log[i].payload.toolCallId
            && Cleared(log[i + 1..j], log[i].payload.toolCallId.text)
  {
    hide Accepted, StateOf, Transition, OpenGate, GateAgrees, Cleared, Shape;
    StepAt(run, log, j);
    StartNeedsReady(StateOf(run, log[..j]), log[j]);
    var i := LastOf(log[..j], TOOL_REQUESTED);
    assert log[..j][i + 1..] == log[i + 1..j];
  }

  lemma StartNeedsReady(s: RunState, e: Event)
    requires e.payload.ToolStarted? && Transition(s, e).Some?
    ensures s.status.ToolReady? && IsText(e.payload.toolCallId) && s.activeToolCallId == Some(e.payload.toolCallId.text)
  {
  }

  /** A completed run ends in an accepted answer, or in a started and succeeded call verified for the run. */
  lemma CompletionHasEvidence(run: Text, log: seq<Event>)
    requires Accepted(run, log) && StateOf(run, log).status.Completed?
    ensures var n := |log|;
            || (n >= 1 && log[n - 1].payload.CompletionAccepted?)
            || (&& n >= 3
                && log[n - 1].payload.VerificationSucceeded? && log[n - 1].payload.scope != Str(Literal(STEP_SCOPE))
                && log[n - 2].payload.ToolSucceeded? && log[n - 3].payload.ToolStarted?)
  {
    ReachablePhase(run, log);
  }

  predicate IsGateDecision(p: Payload) {
    p.GateApproved? || p.GateRejected? || p.GateEvaluated? || p.GateRevised?
  }

  /** The proposal a decision is about; a revision is about the one it replaces. */
  function Concerns(p: Payload): (Val, Val)
    requires IsGateDecision(p)
  {
    if p.GateRevised? then (p.previousProposalDigest, p.previousRevision) else (p.proposalDigest, p.revision)
  }

  lemma DecisionNeedsGate(s: RunState, e: Event)
    requires IsGateDecision(e.payload) && Transition(s, e).Some?
    ensures s.status.AwaitingGate?
    ensures var (digest, revision) := Concerns(e.payload);
            IsText(digest) && s.activeGateProposalDigest == Some(digest.text)
            && IsPositive(revision) && s.activeGateRevision == Some(revision.number)
    ensures e.payload.GateRevised? ==>
              IsPositive(e.payload.revision) && e.payload.revision.number == e.payload.previousRevision.number + 1
    ensures e.payload.GateEvaluated? ==>
              && s.activeGateMode == Some(Literal(USER_GATE))
              && IsPositive(e.payload.attempt) && e.payload.attempt.number == s.activeGateAttempts + 1
              && IsPositive(e.payload.maxAttempts) && s.activeGateMaxAttempts == Some(e.payload.maxAttempts.number)
              && (IsOutcome(e.payload, RETRY) ==> e.payload.attempt.number < e.payload.maxAttempts.number)
  {
    hide RunTransition, ModelTransition, ToolTransition;
  }

  /**
   * Every accepted gate decision is about the proposal in force: its digest, and the escalation's revision
   * plus the number of revisions so far.  Answers to one proposal are numbered 1, 2, ... up to its limit.
   */
  lemma DecisionNamesNewest(run: Text, log: seq<Event>, k: nat)
    requires Accepted(run, log) && k < |log| && IsGateDecision(log[k].payload)
    ensures var i := LastOf(log[..k], TOOL_REQUESTED);
            && 0 <= i && log[i].payload.ToolRequested? && IsText(log[i].payload.toolCallId)
            && var gate := log[i + 1..k];
            && OpenGate(gate, log[i].payload.toolCallId.text)
            && var p := log[k].payload; var (digest, revision) := Concerns(p);
            && digest == Newest(gate).proposalDigest
            && IsPositive(gate[0].payload.revision)
            && revision == Int(gate[0].payload.revision.number + Revisions(gate))
            && (p.GateRevised? ==> p.revision == Int(revision.number + 1))
            && (p.GateEvaluated? ==>
                  && p.attempt == Int(EvaluationsOfNewest(gate) + 1)
                  && p.maxAttempts == Newest(gate).maxAttempts && IsPositive(p.maxAttempts)
                  && EvaluationsOfNewest(gate) < p.maxAttempts.number
                  && (IsOutcome(p, RETRY) ==> EvaluationsOfNewest(gate) + 1 < p.maxAttempts.number))
  {
    hide Accepted, StateOf, Transition, OpenGate, Revisions, EvaluationsOfNewest, Newest, Cleared;
    StepAt(run, log, k);
    DecisionNeedsGate(StateOf(run, log[..k]), log[k]);
    var i := LastOf(log[..k], TOOL_REQUESTED);
    assert log[..k][i + 1..] == log[i + 1..k];
  }

  lemma {:induction false} RevisionsGrow(segment: seq<Event>, m: nat)
    requires m <= |segment|
    ensures Revisions(segment[..m]) <= Revisions(segment)
  {
    if m < |segment| {
      var n := |segment| - 1;
      RevisionsGrow(segment[..n], m);
      assert segment[..n][..m] == segment[..m];
    } else {
      assert segment[..m] == segment;
    }
  }

  /**
   * A proposal that a revision has replaced is never decided again: later decisions of the same call
   * carry a larger revision number than the one the revision at m replaced.
   */
  lemma SupersededStaysSuperseded(run: Text, log: seq<Event>, m: nat, k: nat)
    requires Accepted(run, log) && m < k < |log|
    requires log[m].payload.GateRevised? && IsGateDecision(log[k].payload)
    requires LastOf(log[..k], TOOL_REQUESTED) < m
    ensures var (_, replaced) := Concerns(log[m].payload); var (_, decided) := Concerns(log[k].payload);
            replaced.Int? && decided.Int? && replaced.number < decided.number
  {
    hide Accepted, OpenGate, Newest, EvaluationsOfNewest, Revisions, KindOf, IsOutcome;
    DecisionNamesNewest(run, log, m);
    DecisionNamesNewest(run, log, k);
    SameRequest(log, m, k);
    LaterRevisionCounts(log, LastOf(log[..k], TOOL_REQUESTED) + 1, m, k);
  }

  lemma LaterRevisionCounts(log: seq<Event>, from: nat, m: nat, k: nat)
    requires from <= m < k <= |log| && log[m].payload.GateRevised?
    ensures Revisions(log[from..m]) < Revisions(log[from..k])
  {
    var gate := log[from..k];
    var upTo := log[from..m + 1];
    assert upTo == gate[..m + 1 - from];
    assert upTo[..m - from] == log[from..m] && upTo[m - from] == log[m];
    RevisionsGrow(gate, m + 1 - from);
  }

  lemma {:induction false} SameRequest(log: seq<Event>, m: nat, k: nat)
    requires m <= k <= |log| && LastOf(log[..k], TOOL_REQUESTED) < m
    ensures LastOf(log[..m], TOOL_REQUESTED) == LastOf(log[..k], TOOL_REQUESTED)
    decreases k
  {
    if m < k {
      assert log[..k][..k - 1] == log[..k - 1];
      SameRequest(log, m, k - 1);
    }
  }
}
