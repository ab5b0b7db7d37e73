/** The steps of the bounded loop in terms of the uninterrupted run (src/agent_runtime_lab/fake_agent.py:342-487). */
module LoopSteps {
  import opened Values
  import opened Events
  import opened RunStates
  import opened Reducer
  import opened Replay
  import opened Lifecycle
  import opened ToolEffects
  import opened Protocol
  import opened RunInvariant
  import opened Continuation
  import opened Guards
  import opened Recovery
  import opened OperationSteps

  // ----- Steps of the loop in terms of the uninterrupted run -----

  lemma NothingNext(cfg: Config, run: Text, w: World)
    requires !w.state.status.Ready? && !InModelPhase(w.state.status) && !w.state.status.Verifying?
    requires InToolPhase(w.state.status) ==> w.state.status.AwaitingGate?
    ensures Next(cfg, run, w).None?
  {
    hide ActiveRequest, NextWhenReady, NextWhenAsked, NextWhenProposed, NextWhenRunning, NextWhenVerifying;
  }

  /** The event that reports a spent budget is the next step. */
  lemma BudgetEndStep(cfg: Config, run: Text, w: World)
    requires Coherent(run, w) && w.state.status.Ready? && !HasBudget(w.state)
    ensures Next(cfg, run, w).Some?
    ensures Follows(cfg, run, w, Step(cfg, run, w)) && Step(cfg, run, w).state.turnIndex == w.state.turnIndex
  {
    hide Coherent, Follows, Acceptable, Appended, Next;
    BudgetEndIsAcceptable(cfg, run, w);
    FollowsStep(cfg, run, w);
  }

  /** The intent to ask is the next step, and the context that was built is still the turn's own. */
  lemma AskStep(cfg: Config, run: Name, w: World)
    requires Inv(run, w) && w.state.status.Ready? && HasBudget(w.state)
    ensures MayBegin(w.state, TurnInput(run, w))
    ensures var v := Appended(cfg, run, w, AskPayload(run, w.state.turnIndex, Observe(w.log)), []);
            && Follows(cfg, run, w, v) && Inv(run, v) && v.state.status.ModelPending?
            && TurnInput(run, v) == TurnInput(run, w) && v.state.turnIndex == w.state.turnIndex
            && MayPropose(v.state, TurnInput(run, w), InvocationName(run, StepName(w.state.turnIndex + 1)))
  {
    hide TurnFacts, EffectFacts, Coherent, Acceptable, Appended, Follows, Observe, Next;
    AskIsAcceptable(cfg, run, w);
    FollowsStep(cfg, run, w);
    var v := Appended(cfg, run, w, AskPayload(run, w.state.turnIndex, Observe(w.log)), []);
    FollowsKeeps(cfg, run, w, v);
    InvShape(run, v);
    AskedIsActive(run, v);
    StepOfShape(v.state);
    SameInputs(run, w, v, Raw(""));
  }

  /** The adapter's answer is the next step: its action, or the failure to give one. */
  lemma AnswerStep(cfg: Config, run: Name, w: World, invocation: Text)
    requires Inv(run, w) && w.state.status.ModelPending? && w.state.activeModelInvocationId == Some(invocation)
    ensures match cfg.adapter(TurnInput(run, w))
            case AdapterFails =>
              var v := Appended(cfg, run, w, ModelActionFailed(Str(Literal(ADAPTER_FAILED))), []);
              Follows(cfg, run, w, v) && v.state.turnIndex == w.state.turnIndex
            case Proposes(action) =>
              var v := Appended(cfg, run, w, ProposalPayload(invocation, w.state.turnIndex, action), []);
              Follows(cfg, run, w, v) && v.state.turnIndex == w.state.turnIndex
  {
    hide TurnFacts, EffectFacts, Coherent, Acceptable, CanTake, Appended, Follows, Observe, TurnInput, ProposalPayload,
         ActiveRequest;
    InvocationOf(run, w);
    match cfg.adapter(TurnInput(run, w)) {
      case AdapterFails =>
        FailureDecides(cfg, run, w, Literal(ADAPTER_FAILED));
        TakenIsAcceptable(cfg, run, w, ModelActionFailed(Str(Literal(ADAPTER_FAILED))), []);
      case Proposes(action) =>
        ProposalIsAcceptable(cfg, run, w, invocation, action);
    }
    FollowsStep(cfg, run, w);
  }

  lemma TakenIsAcceptable(cfg: Config, run: Text, w: World, p: Payload, rest: seq<Val>)
    requires CanTake(cfg, run, w, p, rest) && Disciplined(run, w, p)
    ensures Acceptable(cfg, run, w, p, rest)
  {
    hide CanTake, Disciplined;
  }

  lemma InvocationOf(run: Text, w: World)
    requires Inv(run, w) && w.state.status.ModelPending?
    ensures w.state.activeModelInvocationId == Some(InvocationName(run, StepName(w.state.turnIndex + 1)))
  {
    hide Inv, AskedAt;
    AskedIsActive(run, w);
  }

  /**
   * Judging the pending answer is a step, and if it waits on the log's own observation the next one, unless the
   * evidence is about another text.
   */
  lemma CompletionStep(cfg: Config, run: Name, w: World, pending: DurableModelAction)
    requires Inv(run, w) && w.state.status.ActionPending? && PendingOf(run, w) == Done(pending)
    requires pending.action.FinalAnswerAction?
    ensures var c := cfg.complete(pending.action.answer, pending.context);
            var p := CompletionPayload(w.state.activeModelActionEventId, pending.context.stepId, pending.action.answer, c);
            if !MayComplete(run, w, pending.context, pending.action.answer, c) then Observed(w) ==> Next(cfg, run, w).None?
            else
              var v := Appended(cfg, run, w, p, [Str(pending.action.answer), c.checks]);
              && HasBudget(w.state)
              && Follows(cfg, run, w, v) && v.state.turnIndex == w.state.turnIndex + 1
              && (if c.accepted then v.state.status.Completed? else v.state.status.Ready?)
  {
    hide TurnFacts, EffectFacts, Coherent, Acceptable, CanTake, Appended, Follows, Observe, ActiveRequest, ActionOf,
         PendingOf;
    PendingIsExact(run, w);
    PendingIsNamed(run, w);
    PendingInput(run, w, pending);
    hide Observed;
    var c := cfg.complete(pending.action.answer, pending.context);
    if MayComplete(run, w, pending.context, pending.action.answer, c) {
      var p := CompletionPayload(w.state.activeModelActionEventId, pending.context.stepId, pending.action.answer, c);
      var rest := [Str(pending.action.answer), c.checks];
      assert Observed(w) ==> Next(cfg, run, w) == Some(AppendEvent(p, rest));
      hide Next;
      CompletionDecides(cfg, run, w, pending.action.answer, c, rest);
      TakenIsAcceptable(cfg, run, w, p, rest);
      CompletionMoves(cfg, run, w, w.state.activeModelActionEventId, pending.context.stepId, pending.action.answer, c, rest);
      if Observed(w) {
        FollowsStep(cfg, run, w);
      } else {
        EventGrows(cfg, run, w, p, rest);
        UnobservedFollows(cfg, run, w, Appended(cfg, run, w, p, rest));
      }
    }
  }

  /** Nothing more than growth is asked of a turn that was begun on another observation. */
  lemma UnobservedFollows(cfg: Config, run: Text, w: World, v: World)
    requires Grows(run, w, v) && !Observed(w)
    ensures Follows(cfg, run, w, v)
  {
    hide Grows, Observed, Bounded;
  }

  // ----- A verdict that does not speak -----

  /** The log ends in a failure without a reason, which no log that replays does. */
  predicate Silenced(log: seq<Event>) {
    log != [] && log[|log| - 1].payload == VerificationFailed(Str(Raw("")))
  }

  /** Every verdict of the configured verifier is a pass or says why not. */
  ghost predicate AlwaysSpeaks(cfg: Config) {
    forall input, action, receipt :: Speaks(cfg.verify(input, action, receipt))
  }

  /** The run was silenced, within its event allowance. */
  ghost predicate BreaksOff(cfg: Config, run: Text, w: World, x: World) {
    && Silenced(x.log) && !Accepted(run, x.log) && !AlwaysSpeaks(cfg)
    && w.log <= x.log
    && (Bounded(run, w) ==> |x.log| <= |w.log| + EventsLeft(w))
  }

  /** The run was silenced: behind the log of the uninterrupted run stands one failure without a reason. */
  ghost predicate Broke(cfg: Config, run: Text, w: World, x: World) {
    && BreaksOff(cfg, run, w, x)
    && (Bounded(run, w) && Observed(w) ==>
          && x.log[..|x.log| - 1] == Finish(cfg, run, w).log
          && Finish(cfg, run, w).state.status.Verifying?)
  }

  /** The run followed the uninterrupted run, or was silenced on it. */
  ghost predicate WentAlong(cfg: Config, run: Text, w: World, x: World) {
    if Silenced(x.log) then Broke(cfg, run, w, x) else Follows(cfg, run, w, x)
  }

  lemma FollowersSpeak(run: Text, w: World)
    requires Coherent(run, w)
    ensures !Silenced(w.log)
  {
    hide Honest;
    if Silenced(w.log) {
      LastStep(run, w.log);
      SilenceIsRefused(StateOf(run, w.log[..|w.log| - 1]), w.log[|w.log| - 1]);
    }
  }

  lemma SilenceIsRefused(s: RunState, e: Event)
    requires e.payload == VerificationFailed(Str(Raw("")))
    ensures Transition(s, e).None?
  {
  }

  lemma AlongAfterFollowing(cfg: Config, run: Text, w: World, v: World, x: World)
    requires Follows(cfg, run, w, v) && WentAlong(cfg, run, v, x)
    ensures WentAlong(cfg, run, w, x)
  {
    hide Follows, Silenced, BreaksOff, Observed, Bounded, Finish;
    if Silenced(x.log) {
      BreaksChain(cfg, run, w, v, x);
    } else {
      FollowsChain(cfg, run, w, v, x);
    }
  }

  lemma BreaksChain(cfg: Config, run: Text, w: World, v: World, x: World)
    requires Follows(cfg, run, w, v) && BreaksOff(cfg, run, v, x)
    requires Observed(w) ==> Broke(cfg, run, v, x)
    ensures Broke(cfg, run, w, x)
  {
    hide Inv, Coherent, Accepted, EventsLeft, Next, AlwaysSpeaks, Observed, Silenced;
    if Bounded(run, w) {
      assert Bounded(run, v);
    }
  }

  lemma AlongByFollowing(cfg: Config, run: Text, w: World, v: World)
    requires Follows(cfg, run, w, v)
    ensures WentAlong(cfg, run, w, v) && !Silenced(v.log)
  {
    hide Inv, Coherent, Along, Bounded, Broke, Silenced, Observed, EventsLeft;
    FollowersSpeak(run, v);
  }

  /**
   * Verifying the receipt of the request in force is a step if the verdict speaks, and breaks the run if not; given the
   * input that the log rebuilds, it is the next step, or the end of the run.
   */
  lemma VerificationStep(cfg: Config, run: Name, w: World, context: ModelInput, receipt: ToolReceipt)
    requires Inv(run, w) && w.state.status.Verifying? && EvidenceIs(run, w, receipt)
    ensures w.state.activeStepId.Some?
    ensures var step := w.state.activeStepId.value;
            var v := cfg.verify(context, CallOf(ActiveRequest(run, w.log).value), receipt);
            if Speaks(v) then
              var after := Appended(cfg, run, w, StepVerificationPayload(step, v), VerificationRest(v));
              && Grows(run, w, after) && after.state.turnIndex == w.state.turnIndex + Bit(v.passed)
              && (if v.passed then after.state.status.Ready? else after.state.status.Failed?)
              && (context == CallInput(run, w, step) ==> Follows(cfg, run, w, after))
            else
              && StepVerificationPayload(step, v) == VerificationFailed(Str(Raw("")))
              && (context == CallInput(run, w, step) ==> Next(cfg, run, w).None?)
  {
    hide TurnFacts, EffectFacts, Coherent, Acceptable, CanTake, Appended, Follows, Grows, Observe, ActiveRequest;
    VerifyingFields(run, w);
    var step := w.state.activeStepId.value;
    var v := cfg.verify(context, CallOf(ActiveRequest(run, w.log).value), receipt);
    var p := StepVerificationPayload(step, v);
    if Speaks(v) {
      assert context == CallInput(run, w, step) ==> Next(cfg, run, w) == Some(AppendEvent(p, VerificationRest(v)));
      hide Next;
      StepVerificationDecides(cfg, run, w, v);
      TakenIsAcceptable(cfg, run, w, p, VerificationRest(v));
      EventGrows(cfg, run, w, p, VerificationRest(v));
      if context == CallInput(run, w, step) {
        FollowsStep(cfg, run, w);
      }
    }
  }

  /** A silent verdict, once persisted. */
  lemma SilenceBreaks(cfg: Config, run: Name, w: World, x: World, e: Event)
    requires Inv(run, w) && w.state.status.Verifying?
    requires x.log == w.log + [e] && e.payload == VerificationFailed(Str(Raw(""))) && !Accepted(run, x.log)
    requires !AlwaysSpeaks(cfg)
    ensures BreaksOff(cfg, run, w, x) && (Next(cfg, run, w).None? ==> Broke(cfg, run, w, x))
  {
    hide Inv, Next, Accepted, AlwaysSpeaks, Observed;
    assert x.log[..|x.log| - 1] == w.log;
    if Bounded(run, w) {
      BoundedHasRoom(run, w);
    }
  }

  lemma PendingCall(run: Name, w: World, pending: DurableModelAction)
    requires PendingIs(run, w, pending) && w.state.status.ActionPending? && pending.action.ToolCallAction?
    requires Inv(run, w)
    ensures MayRequest(w.state, RequestFor(run, w, pending.eventId, pending.action))
    ensures CallOf(RequestFor(run, w, pending.eventId, pending.action)) == pending.action
    ensures pending.context.stepId == StepName(w.state.turnIndex + 1)
  {
    hide ActionOf, Observe, Coherent, TurnFacts, EffectFacts;
    PendingIsNamed(run, w);
  }

  /** Requesting the proposed call is the next step. */
  lemma RequestIsNext(cfg: Config, run: Name, w: World, pending: DurableModelAction)
    requires PendingIs(run, w, pending) && w.state.status.ActionPending? && pending.action.ToolCallAction?
    requires Inv(run, w)
    ensures var p := RequestPayload(RequestFor(run, w, pending.eventId, pending.action));
            Follows(cfg, run, w, Appended(cfg, run, w, p, []))
  {
    hide ActionOf, Observe, Coherent, TurnFacts, EffectFacts, Acceptable, CanTake, Appended, Follows, ActiveRequest,
         RequestPayload, Disciplined;
    var request := RequestFor(run, w, pending.eventId, pending.action);
    var p := RequestPayload(request);
    assert Next(cfg, run, w) == Some(AppendEvent(p, []));
    hide Next;
    PendingCall(run, w, pending);
    RequestDecides(cfg, run, w, request);
    TakenIsAcceptable(cfg, run, w, p, []);
    FollowsStep(cfg, run, w);
  }

  /** A stored receipt that was reported as a success is the evidence of its request. */
  lemma ReportedIsEvidence(run: Name, w: World, request: ToolRequest, receipt: ToolReceipt)
    requires Inv(run, w) && request.runId == run && Reported(w, request, w.state, receipt) && w.state.status.Verifying?
    ensures EvidenceIs(run, w, receipt) && ActiveRequest(run, w.log) == Some(request)
    ensures w.state.activeStepId == Some(request.stepId)
  {
    hide Coherent, TurnFacts, OpenIntents, ActiveRequest;
    IntentNames(request);
    VerifyingFields(run, w);
  }

  lemma SameBudget(run: Text, w: World, v: World)
    requires Coherent(run, w) && Coherent(run, v) && w.log <= v.log && !w.state.status.New?
    ensures v.state.maxSteps == w.state.maxSteps
  {
    hide Accepted, StateOf, Honest;
    assert v.log[..|w.log|] == w.log;
    BudgetNeverChanges(run, v.log, |w.log|);
  }

  /** Turns that the budget still has room for; none are counted without a budget. */
  ghost function TurnsLeft(w: World): int {
    if w.state.maxSteps.Some? then w.state.maxSteps.value - w.state.turnIndex else 0
  }

  lemma BudgetFollows(cfg: Config, run: Text, w: World, v: World)
    requires Inv(run, w) && Follows(cfg, run, w, v) && !w.state.status.New?
    ensures v.state.maxSteps == w.state.maxSteps && Inv(run, v)
    ensures w.state.maxSteps.Some? ==>
              && 0 <= TurnsLeft(v) && TurnsLeft(v) - TurnsLeft(w) == w.state.turnIndex - v.state.turnIndex
              && |v.log| <= |w.log| + 7 * TurnsLeft(w) + 1
  {
    hide TurnFacts, EffectFacts, Coherent, Finish, Next, WithinBudget, Observed, Along;
    SameBudget(run, w, v);
    if w.state.maxSteps.Some? {
      InvShape(run, w);
      BoundedHasRoom(run, w);
      BoundedHasRoom(run, v);
    }
  }

  lemma BreakIsBounded(cfg: Config, run: Text, w: World, x: World)
    requires Bounded(run, w) && Broke(cfg, run, w, x)
    ensures |x.log| <= |w.log| + 7 * TurnsLeft(w) + 1
  {
    hide Inv, Next, Accepted, AlwaysSpeaks, Finish, Observed;
    BoundedHasRoom(run, w);
  }
}
