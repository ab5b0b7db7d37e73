/** The runtime around the durable facts (src/agent_runtime_lab/authorized_tool_runtime.py). */
module Runtime {
  import opened Values
  import opened Events
  import opened RunStates
  import opened Reducer
  import opened Replay
  import opened Lifecycle
  import opened RunGrammar
  import opened EventStores
  import opened ToolEffects
  import opened Protocol
  import opened RunInvariant
  import opened Continuation
  import opened Guards
  import opened Recovery
  import opened Storages
  import opened LogScans
  import opened OperationSteps

  /** The answer of an operation that persists one event: a value if the event was legal, the replay error if not. */
  ghost predicate Answers<T>(r: Outcome<T>, legal: bool, value: T) {
    match r
    case Done(answer) => legal && answer == value
    case Raised(error) => !legal && error == ReplayFailed
    case Crashed => true
  }

  class AuthorizedToolRuntime {
    const events: EventStore
    const executor: DurableToolExecutor
    const config: Config
    /** Whether a snapshot store is configured; it is then the event store itself. */
    const useSnapshots: bool

    constructor (events: EventStore, executor: DurableToolExecutor, config: Config, useSnapshots: bool)
      ensures this.events == events && this.executor == executor
      ensures this.config == config && this.useSnapshots == useSnapshots
    {
      this.events, this.executor, this.config, this.useSnapshots := events, executor, config, useSnapshots;
    }

    ghost function Facts(): Storage
      reads events, executor.store, executor.runner
    {
      Storage(events.tables, events.identities, executor.Facts())
    }

    ghost function WorldOf(run: Text): World
      reads events, executor.store, executor.runner
    {
      WorldIn(Facts(), run)
    }

    /** The parts fit together, the tables are as their stores leave them, and the ledger is sound. */
    ghost predicate Valid()
      reads events, executor.store, executor.runner
    {
      && events.Valid() && executor.store.Valid() && HonestIndex(events.identities)
      && executor.runner.behave == config.runner && executor.registry == config.registry
      && LedgerSound(config.registry, Facts())
    }

    /** The run's log replays, and no snapshot row stands in the way of loading it. */
    ghost predicate Loads(run: Text)
      reads events
    {
      Accepted(run, events.Log(run)) && (useSnapshots ==> events.Readable(run))
    }

    /** Rebuild state from the events, from an accepted snapshot where there is one: always the full replay. */
    method LoadState(run: Name) returns (r: Outcome<RunState>)
      requires Valid()
      ensures r == if useSnapshots && !events.Readable(run) then Raised(RuntimeError.SnapshotUnreadable)
                   else match ReplayRun(run, events.Log(run)) case Ok(s) => Done(s) case Err(_) => Raised(ReplayFailed)
      ensures r.Done? <==> Loads(run)
      ensures r.Done? ==> r.value == WorldOf(run).state && Coherent(run, WorldOf(run))
    {
      hide GoodTables, Trusted, AcceptedSnapshot, EventsOf, Fold, HonestIndex, LedgerSound, Coherent, RaisesOnLoad,
           Dense;
      TablesAreDense(events.tables, events.identities, run);
      if Accepted(run, events.Log(run)) {
        StoredIsCoherent(run, Facts());
      }
      var result: Result<RunState, ReduceError>;
      ghost var log := events.Log(run);
      if useSnapshots {
        var loaded := events.LoadSnapshot(run);
        if loaded.Err? {
          return Raised(RuntimeError.SnapshotUnreadable);
        }
        if loaded.value.Some? {
          var snapshot := loaded.value.value;
          var tail := events.LoadTail(run, snapshot.nextSequence);
          result := ReplayTail(snapshot, tail);
          FoldConcat(Initial(run), log[..snapshot.nextSequence], log[snapshot.nextSequence..]);
          assert log[..snapshot.nextSequence] + log[snapshot.nextSequence..] == log;
          return if result.Ok? then Done(result.value) else Raised(ReplayFailed);
        }
      }
      var all := events.LoadTail(run, 0);
      result := ReplayTail(Initial(run), all);
      return if result.Ok? then Done(result.value) else Raised(ReplayFailed);
    }

    /**
     * Persist one event, then validate it.  A run that does not load is not touched; the log of one that does
     * grows by exactly the stamped event, and still replays if and only if the reducer can take that event.
     */
    method Append(run: Name, payload: Payload, rest: seq<Val>) returns (r: Outcome<RunState>)
      requires Valid()
      modifies events`tables, events`identities
      ensures Valid() && Touches(run, old(Facts()), Facts())
      ensures var legal := CanTake(config, run, old(WorldOf(run)), payload, rest);
              if old(Loads(run)) then
                && Persisted(config, run, old(Facts()), Facts(), payload, rest, legal)
                && Answers(r, legal, WorldOf(run).state) && (legal ==> Loads(run))
              else Facts() == old(Facts()) && r.Raised?
    {
      hide GoodTables, Trusted, EventsOf, Fold, CanTake, KindOf, HonestIndex, AtMostOnce, Witnessed, JustifiedLedger, Persisted,
           Touches, Coherent, RaisesOnLoad, WorldIn;
      ghost var a, log := Facts(), events.Log(run);
      TouchesSelf(run, a);
      var state :- LoadState(run);
      assert WorldOf(run).log == log && WorldOf(run).state == state && state.nextSequence == |log| by {
        CoherentReplaysTo(run, WorldOf(run));
        WorldFields(run, a);
      }
      var e := Stamp(config, run, state.nextSequence, payload, rest);
      StampIsFresh(events.tables, events.identities, e);
      HonestGrows(events.identities, e);
      var appended := events.Append(e);
      assert Joined(config, run, a, Facts(), payload, rest) by {
        forall other | other != run ensures LogIn(Facts(), other) == LogIn(a, other) {
          assert events.Log(other) == old(events.Log(other));
        }
        assert events.Log(run) == log + [e];
      }
      JoinedIsPersisted(config, run, a, Facts(), payload, rest);
      JoinedKeepsLedger(config, run, a, Facts(), payload, rest);
      PersistedFields(config, run, a, Facts(), payload, rest, CanTake(config, run, WorldIn(a, run), payload, rest));
      if * {
        return Crashed;
      }
      r := LoadAfterAppend(run);
    }

    /** The full replay behind every append. */
    method LoadAfterAppend(run: Name) returns (r: Outcome<RunState>)
      requires Valid()
      ensures if Accepted(run, events.Log(run)) then r == Done(WorldOf(run).state) else r == Raised(ReplayFailed)
    {
      hide GoodTables, Trusted, EventsOf, Fold, HonestIndex, LedgerSound, Coherent, RaisesOnLoad, Dense;
      TablesAreDense(events.tables, events.identities, run);
      var all := events.LoadTail(run, 0);
      var result := ReplayTail(Initial(run), all);
      return if result.Ok? then Done(result.value) else Raised(ReplayFailed);
    }

    /** Append an event that the guards before it have made acceptable: it cannot poison the log. */
    method AppendGuarded(run: Name, payload: Payload, rest: seq<Val>) returns (r: Outcome<RunState>)
      requires Valid() && Loads(run) && Acceptable(config, run, WorldOf(run), payload, rest)
      modifies events`tables, events`identities
      ensures Valid() && Touches(run, old(Facts()), Facts()) && Loads(run)
      ensures WorldOf(run) == Appended(config, run, old(WorldOf(run)), payload, rest)
      ensures Coherent(run, WorldOf(run)) && (Inv(run, old(WorldOf(run))) ==> Inv(run, WorldOf(run)))
      ensures r == Done(WorldOf(run).state) || r == Crashed
    {
      hide Acceptable, CanTake, Touches, Appended, WorldIn, Accepted, GoodTables, Trusted, HonestIndex, LedgerSound,
           Joined, TurnFacts, EffectFacts, Coherent, RaisesOnLoad, Disciplined;
      AcceptableIsTaken(config, run, WorldOf(run), payload, rest);
      r := Append(run, payload, rest);
    }

    // ----- Model actions -----

    /** The next model input, rebuilt from state and log; a spent budget ends the run instead. */
    method BuildModelInput(run: Name) returns (r: Outcome<ModelInput>)
      requires Valid()
      modifies events`tables, events`identities
      ensures Valid() && Touches(run, old(Facts()), Facts())
      ensures var w := old(WorldOf(run));
              if !old(Loads(run)) then Facts() == old(Facts()) && r.Raised?
              else if !w.state.status.Ready? then Facts() == old(Facts()) && r == Raised(InvalidTransitionError)
              else if HasBudget(w.state) then Facts() == old(Facts()) && r == Done(TurnInput(run, w))
              else
                && Loads(run) && Coherent(run, WorldOf(run)) && (Inv(run, w) ==> Inv(run, WorldOf(run)))
                && Next(config, run, w).Some? && WorldOf(run) == Step(config, run, w)
                && WorldOf(run).state.status.Failed?
                && (r == Raised(StepBudgetExhaustedError) || r == Crashed)
    {
      hide Acceptable, CanTake, Touches, Appended, WorldIn, Accepted, GoodTables, Trusted, HonestIndex, LedgerSound,
           EventsOf, Observe, Inv, Coherent, RaisesOnLoad, AuthorizedToolRuntime.Valid, AuthorizedToolRuntime.Loads;
      TouchesSelf(run, Facts());
      ghost var w := WorldOf(run);
      var state :- LoadState(run);
      if !state.status.Ready? {
        return Raised(InvalidTransitionError);
      }
      if state.maxSteps.Some? && state.turnIndex >= state.maxSteps.value {
        BudgetEndIsAcceptable(config, run, w);
        var exhausted :- AppendGuarded(run, StepBudgetExhausted(Int(state.maxSteps.value), Int(state.turnIndex)), []);
        return Raised(StepBudgetExhaustedError);
      }
      WorldFields(run, Facts());
      var observation := LoadStepObservation(run);
      return Done(ModelInput(run, StepName(state.turnIndex + 1), state.turnIndex, state.status, observation));
    }

    /** The evidence of the latest verified step. */
    method LoadStepObservation(run: Name) returns (observation: Name)
      requires Valid()
      ensures observation == Observe(events.Log(run))
    {
      hide GoodTables, Trusted, EventsOf, HonestIndex, LedgerSound, Matches, IsLastMatch;
      var log := events.LoadTail(run, 0);
      var i := FindLast(log, AnyStepVerification);
      MatchBounds(log, AnyStepVerification, i);
      ObservationFound(log, i);
      return if i < 0 then EmptyObjectJson else ObservationOf(log[i].payload);
    }

    /**
     * Persist the intent to call the adapter, before crossing the model boundary.  The context is compared with
     * the state, but neither its observation nor the budget is looked at: with the budget spent the log no
     * longer replays.
     */
    method BeginModelAction(context: ModelInput) returns (r: Outcome<Text>)
      requires Valid() && context.runId != Raw("")
      modifies events`tables, events`identities
      ensures Valid() && Touches(context.runId, old(Facts()), Facts())
      ensures var run, w := context.runId, old(WorldOf(context.runId));
              if !old(Loads(run)) then Facts() == old(Facts()) && r.Raised?
              else if !MayBegin(w.state, context) then Facts() == old(Facts()) && r == Raised(InvalidTransitionError)
              else
                && Persisted(config, run, old(Facts()), Facts(), AskPayload(run, w.state.turnIndex, context.observationJson), [],
                             HasBudget(w.state))
                && Answers(r, HasBudget(w.state), InvocationName(run, context.stepId))
                && (HasBudget(w.state) ==> Loads(run))
    {
      hide CanTake, Touches, Persisted, WorldIn, Accepted, GoodTables, Trusted, HonestIndex, LedgerSound, EventsOf, Inv,
           Coherent, RaisesOnLoad, AuthorizedToolRuntime.Valid, AuthorizedToolRuntime.Loads,
           AuthorizedToolRuntime.Facts, AuthorizedToolRuntime.WorldOf;
      var run: Name := context.runId;
      TouchesSelf(run, Facts());
      ghost var w := WorldOf(run);
      var state :- LoadState(run);
      if !MayBegin(state, context) {
        return Raised(InvalidTransitionError);
      }
      AskDecides(config, run, w, context.observationJson);
      var invocation := InvocationName(run, context.stepId);
      var payload := ModelActionRequested(Str(context.stepId), Int(context.turnIndex), Str(context.observationJson),
                                          Str(invocation));
      var begun :- Append(run, payload, []);
      return Done(invocation);
    }

    /** Persist one adapter action before dispatching it, and read it back. */
    method PersistModelAction(context: ModelInput, invocation: Text, action: ModelAction)
      returns (r: Outcome<DurableModelAction>)
      requires Valid() && context.runId != Raw("")
      modifies events`tables, events`identities
      ensures Valid() && Touches(context.runId, old(Facts()), Facts())
      ensures var run, w := context.runId, old(WorldOf(context.runId));
              if !old(Loads(run)) then Facts() == old(Facts()) && r.Raised?
              else if !MayPropose(w.state, context, invocation) then
                Facts() == old(Facts()) && r == Raised(InvalidTransitionError)
              else
                && Persisted(config, run, old(Facts()), Facts(), ProposalPayload(invocation, w.state.turnIndex, action), [], true)
                && Loads(run) && WorldOf(run).state.status.ActionPending?
                && (r == Crashed || r == PendingOf(run, WorldOf(run)))
    {
      hide Acceptable, CanTake, Touches, Appended, WorldIn, Accepted, GoodTables, Trusted, HonestIndex, LedgerSound,
           EventsOf, Inv, Coherent, RaisesOnLoad, PendingOf, Joined, Disciplined, ProposalPayload, MayPropose,
           AuthorizedToolRuntime.Valid;
      var run: Name := context.runId;
      TouchesSelf(run, Facts());
      ghost var w := WorldOf(run);
      var state :- LoadState(run);
      if !MayPropose(state, context, invocation) {
        return Raised(InvalidTransitionError);
      }
      ProposalComesTo(config, run, w, context, invocation, action);
      var payload :=
        match action
        case ToolCallAction(call, tool, arguments) =>
          ModelActionProposed(Str(invocation), Str(context.stepId), Int(context.turnIndex), Str(Literal(TOOL_CALL)),
                              Str(call), Str(tool), Str(arguments), Missing)
        case FinalAnswerAction(answer) =>
          ModelActionProposed(Str(invocation), Str(context.stepId), Int(context.turnIndex), Str(Literal(FINAL_ANSWER)),
                              Missing, Missing, Missing, Str(answer));
      var proposed :- Append(run, payload, []);
      r := LoadPendingModelAction(run);
    }

    /** Rebuild the unconsumed action and its context without calling the adapter. */
    method LoadPendingModelAction(run: Name) returns (r: Outcome<DurableModelAction>)
      requires Valid()
      ensures if Loads(run) then r == PendingOf(run, WorldOf(run)) else r.Raised?
    {
      hide Accepted, GoodTables, Trusted, HonestIndex, LedgerSound, EventsOf, Observe, Coherent, Fold, IsLastMatch,
           Matches, RaisesOnLoad, ReadPending, WorldIn, StateOf;
      WorldFields(run, Facts());
      var state :- LoadState(run);
      if !HasPendingFields(state) {
        return Raised(InvalidTransitionError);
      }
      var log := events.LoadTail(run, 0);
      var invocation, actionEvent := state.activeModelInvocationId.value, state.activeModelActionEventId.value;
      var requested, proposed := FindPending(log, invocation, actionEvent);
      LastMatchIsUnique(log, AskOf(invocation), requested, LastMatch(log, AskOf(invocation)));
      LastMatchIsUnique(log, EventNamed(actionEvent), proposed, LastMatch(log, EventNamed(actionEvent)));
      if requested < 0 || proposed < 0 {
        return Raised(InvalidTransitionError);
      }
      MatchBounds(log, AskOf(invocation), requested);
      MatchBounds(log, EventNamed(actionEvent), proposed);
      return ReadPending(run, invocation, log[requested].payload, log[proposed]);
    }

    /** Fail the run with a reason of the model boundary; nothing here looks at the status first. */
    method RecordModelActionFailure(run: Name, reason: Name) returns (r: Outcome<RunState>)
      requires Valid()
      modifies events`tables, events`identities
      ensures Valid() && Touches(run, old(Facts()), Facts())
      ensures var w := old(WorldOf(run)); var legal := w.state.status.Ready? || w.state.status.ModelPending?;
              if !old(Loads(run)) then Facts() == old(Facts()) && r.Raised?
              else
                && Persisted(config, run, old(Facts()), Facts(), ModelActionFailed(Str(reason)), [], legal)
                && Answers(r, legal, WorldOf(run).state)
                && (legal ==>
                      Loads(run) && WorldOf(run).state.status.Failed? && WorldOf(run).state.failureReason == Some(reason))
    {
      hide CanTake, Touches, WorldIn, Accepted, GoodTables, Trusted, HonestIndex, LedgerSound, EventsOf, Inv, Coherent,
           RaisesOnLoad, Appended, Joined, Disciplined;
      FailureDecides(config, run, WorldOf(run), reason);
      r := Append(run, ModelActionFailed(Str(reason)), []);
    }

    // ----- Verification and completion -----

    /**
     * Persist evidence for the whole run.  Nothing here looks at the status, or at the summary of a failure: the
     * log still replays if and only if the run was VERIFYING and the verdict speaks.
     */
    method RecordVerification(run: Name, result: VerificationResult) returns (r: Outcome<RunState>)
      requires Valid()
      modifies events`tables, events`identities
      ensures Valid() && Touches(run, old(Facts()), Facts())
      ensures var w := old(WorldOf(run)); var legal := w.state.status.Verifying? && Speaks(result);
              if !old(Loads(run)) then Facts() == old(Facts()) && r.Raised?
              else
                && Persisted(config, run, old(Facts()), Facts(), RunVerificationPayload(result), VerificationRest(result), legal)
                && Answers(r, legal, WorldOf(run).state)
                && (legal ==>
                      && Loads(run)
                      && if result.passed then WorldOf(run).state.status.Completed?
                         else WorldOf(run).state.status.Failed? && WorldOf(run).state.failureReason == Some(result.summary))
    {
      hide CanTake, Touches, WorldIn, Accepted, GoodTables, Trusted, HonestIndex, LedgerSound, EventsOf, Inv, Coherent,
           RaisesOnLoad, Appended, Joined, Disciplined;
      RunVerificationDecides(config, run, WorldOf(run), result);
      if !result.passed {
        r := Append(run, VerificationFailed(Str(result.summary)), [result.checks]);
      } else {
        r := Append(run, VerificationSucceeded(Missing, Missing, result.checks, Str(result.summary)), []);
      }
    }

    /**
     * Persist the verification of one step: success consumes the turn, failure ends the run.  The log still
     * replays if and only if the verdict speaks.
     */
    method RecordStepVerification(run: Name, result: VerificationResult) returns (r: Outcome<RunState>)
      requires Valid()
      modifies events`tables, events`identities
      ensures Valid() && Touches(run, old(Facts()), Facts())
      ensures var w := old(WorldOf(run));
              if !old(Loads(run)) then Facts() == old(Facts()) && r.Raised?
              else if !w.state.status.Verifying? || w.state.activeStepId.None? then
                Facts() == old(Facts()) && r == Raised(InvalidTransitionError)
              else
                && Persisted(config, run, old(Facts()), Facts(), StepVerificationPayload(w.state.activeStepId.value, result),
                             VerificationRest(result), Speaks(result))
                && Answers(r, Speaks(result), WorldOf(run).state) && (Speaks(result) ==> Loads(run))
    {
      hide CanTake, Touches, WorldIn, Accepted, GoodTables, Trusted, HonestIndex, LedgerSound, EventsOf, Inv, Coherent,
           RaisesOnLoad, Persisted, Joined;
      TouchesSelf(run, Facts());
      ghost var w := WorldOf(run);
      var state :- LoadState(run);
      if !state.status.Verifying? || state.activeStepId.None? {
        return Raised(InvalidTransitionError);
      }
      StepVerificationDecides(config, run, w, result);
      if !result.passed {
        r := Append(run, VerificationFailed(Str(result.summary)), [result.checks]);
      } else {
        var payload := VerificationSucceeded(Str(Literal(STEP_SCOPE)), Str(state.activeStepId.value),
                                             result.checks, Str(result.summary));
        r := Append(run, payload, []);
      }
    }

    /**
     * Persist the decision about one final answer: the pending one, judged on its own text and context, or one
     * given in READY.  The budget is not looked at, so in READY a spent budget leaves a log that does not replay.
     */
    method RecordCompletion(context: ModelInput, answer: Name, result: CompletionResult) returns (r: Outcome<RunState>)
      requires Valid() && context.runId != Raw("")
      modifies events`tables, events`identities
      ensures Valid() && Touches(context.runId, old(Facts()), Facts())
      ensures var run, w := context.runId, old(WorldOf(context.runId));
              if !old(Loads(run)) || !MayComplete(run, w, context, answer, result) then Facts() == old(Facts()) && r.Raised?
              else
                && Persisted(config, run, old(Facts()), Facts(),
                             CompletionPayload(w.state.activeModelActionEventId, context.stepId, answer, result),
                             [Str(answer), result.checks], HasBudget(w.state))
                && Answers(r, HasBudget(w.state), WorldOf(run).state) && (HasBudget(w.state) ==> Loads(run))
                && (w.state.status.ActionPending? ==> HasBudget(w.state))
    {
      hide CanTake, Touches, WorldIn, Accepted, GoodTables, Trusted, HonestIndex, LedgerSound, EventsOf, Inv, Coherent,
           RaisesOnLoad, Persisted, Joined, PendingOf, Disciplined, CompletionPayload, Answers,
           AuthorizedToolRuntime.Valid, AuthorizedToolRuntime.Loads, AuthorizedToolRuntime.Facts,
           AuthorizedToolRuntime.WorldOf;
      var run: Name := context.runId;
      TouchesSelf(run, Facts());
      ghost var w := WorldOf(run);
      var state :- LoadState(run);
      if !state.status.Ready? && !state.status.ActionPending? {
        return Raised(InvalidTransitionError);
      }
      if || !context.stateStatus.Ready? || context.turnIndex != state.turnIndex
         || context.stepId != StepName(state.turnIndex + 1) {
        return Raised(InvalidTransitionError);
      }
      if result.answerSha256 != AnswerHash(answer) {
        return Raised(InvalidTransitionError);
      }
      var reference := state.activeModelActionEventId;
      if state.status.ActionPending? {
        PendingIsNamed(run, w);
        var pending :- LoadPendingModelAction(run);
        if pending.context != context || pending.action != FinalAnswerAction(answer) {
          return Raised(InvalidTransitionError);
        }
      }
      CompletionDecides(config, run, w, answer, result, [Str(answer), result.checks]);
      r := Append(run, CompletionPayload(reference, context.stepId, answer, result), [Str(answer), result.checks]);
    }

    /** The durable evidence of a run that awaits verification: in a run that keeps its promises, never missing. */
    method LoadVerificationReceipt(run: Name) returns (r: Outcome<ToolReceipt>)
      requires Valid()
      ensures r.Done? ==> r.value.outcome == SUCCEEDED && Returned(executor.Facts(), r.value)
      ensures !Loads(run) ==> r.Raised?
      ensures Loads(run) && Inv(run, WorldOf(run)) ==>
                var w := WorldOf(run);
                if w.state.status.Verifying? then r.Done? && EvidenceIs(run, w, r.value)
                else r == Raised(InvalidTransitionError)
    {
      hide WorldIn, Accepted, GoodTables, Trusted, HonestIndex, LedgerSound, EventsOf, Inv, Fold, IsLastMatch,
           ActiveRequest, EvidenceIs, Matches, RaisesOnLoad, Coherent;
      ghost var w := WorldOf(run);
      WorldFields(run, Facts());
      var state :- LoadState(run);
      if !state.status.Verifying? {
        return Raised(InvalidTransitionError);
      }
      var log := events.LoadTail(run, 0);
      var i := FindLast(log, AnySuccess);
      MatchBounds(log, AnySuccess, i);
      if Inv(run, w) {
        EvidenceRead(run, w, i);
      }
      if i < 0 {
        return Raised(MissingVerificationEvidence);
      }
      var effect := log[i].payload.effectId;
      if !IsText(effect) {
        return Raised(MissingVerificationEvidence);
      }
      var receipt := executor.LoadReceipt(effect.text);
      if receipt.None? || receipt.value.outcome != SUCCEEDED {
        return Raised(MissingVerificationEvidence);
      }
      ReturnedBySound(config.registry, Facts(), effect.text);
      return Done(receipt.value);
    }

    /** Rebuild one verifying tool turn from durable facts alone: its input, its action and its receipt. */
    method LoadModelToolRecovery(run: Name) returns (r: Outcome<ModelToolRecovery>)
      requires Valid()
      ensures !Loads(run) ==> r.Raised?
      ensures Loads(run) && Inv(run, WorldOf(run)) ==>
                var w := WorldOf(run);
                if w.state.status.Verifying? then
                  && r.Done? && w.state.activeStepId.Some?
                  && r.value.context == CallInput(run, w, w.state.activeStepId.value)
                  && ActiveRequest(run, w.log).Some? && r.value.action == CallOf(ActiveRequest(run, w.log).value)
                  && EvidenceIs(run, w, r.value.receipt)
                else r == Raised(InvalidTransitionError)
      ensures r.Done? ==> Returned(executor.Facts(), r.value.receipt)
    {
      hide WorldIn, Accepted, GoodTables, Trusted, HonestIndex, LedgerSound, EventsOf, Inv, Fold, IsLastMatch,
           ActiveRequest, CallOf, EvidenceIs, Observe, Matches, RaisesOnLoad, Coherent;
      ghost var w := WorldOf(run);
      WorldFields(run, Facts());
      if Inv(run, w) && w.state.status.Verifying? {
        VerifyingFields(run, w);
      }
      var state :- LoadState(run);
      if !state.status.Verifying? || state.activeStepId.None? {
        return Raised(InvalidTransitionError);
      }
      var log := events.LoadTail(run, 0);
      var i := FindLast(log, RequestOfStep(state.activeStepId.value));
      MatchBounds(log, RequestOfStep(state.activeStepId.value), i);
      if Inv(run, w) {
        RecoveredCall(run, w, i);
      }
      if i < 0 {
        return Raised(MissingVerificationEvidence);
      }
      var observation := LoadStepObservation(run);
      var request := log[i].payload;
      if !IsText(request.toolCallId) || !IsText(request.toolName) || !IsText(request.argumentsJson) {
        return Raised(GateReferenceMismatch);
      }
      var context := ModelInput(run, state.activeStepId.value, state.turnIndex, Ready, observation);
      var action := ToolCallAction(request.toolCallId.text, request.toolName.text, request.argumentsJson.text);
      var receipt :- LoadVerificationReceipt(run);
      return Done(ModelToolRecovery(context, action, receipt));
    }

    // ----- Tool calls -----

    /** Append the event that a recorded receipt calls for. */
    method Report(request: ToolRequest, receipt: ToolReceipt) returns (r: Outcome<(RunState, ToolReceipt)>)
      requires Valid() && request.runId != Raw("") && Loads(request.runId) && Coherent(request.runId, WorldOf(request.runId))
      requires Recorded(config, request.runId, WorldOf(request.runId), request, receipt)
      modifies events`tables, events`identities
      ensures Valid() && Touches(request.runId, old(Facts()), Facts()) && Loads(request.runId)
      ensures Follows(config, request.runId, old(WorldOf(request.runId)), WorldOf(request.runId))
      ensures InCall(old(WorldOf(request.runId)), WorldOf(request.runId))
      ensures r == Crashed || r == Done((WorldOf(request.runId).state, receipt))
      ensures Reported(WorldOf(request.runId), request, WorldOf(request.runId).state, receipt)
    {
      hide Acceptable, CanTake, Touches, Appended, WorldIn, Accepted, GoodTables, Trusted, HonestIndex, LedgerSound,
           EventsOf, Inv, Coherent, RaisesOnLoad, Follows, InCall, Recorded, ResultPayload, ResultRest, Reported;
      var run: Name := request.runId;
      ReportIsAcceptable(config, run, WorldOf(run), request, receipt);
      var state :- AppendGuarded(run, ResultPayload(request.toolCallId, receipt), ResultRest(receipt));
      return Done((state, receipt));
    }

    /** Call the executor for the request in force and report the receipt. */
    method InvokeAndReport(request: ToolRequest) returns (r: Outcome<(RunState, ToolReceipt)>)
      requires Valid() && request.runId != Raw("") && Loads(request.runId) && Coherent(request.runId, WorldOf(request.runId))
      requires MayExecute(request.runId, WorldOf(request.runId), request)
      modifies events`tables, events`identities, executor.store, executor.runner
      ensures Valid() && Touches(request.runId, old(Facts()), Facts()) && Loads(request.runId)
      ensures Follows(config, request.runId, old(WorldOf(request.runId)), WorldOf(request.runId))
      ensures InCall(old(WorldOf(request.runId)), WorldOf(request.runId))
      ensures UnsafeOpenEffect(config, request.runId, old(WorldOf(request.runId))) ==> r == Raised(UnsafeToolRetry)
      ensures r.Done? ==> Reported(WorldOf(request.runId), request, r.value.0, r.value.1)
      ensures r.Raised? ==> WorldOf(request.runId) == old(WorldOf(request.runId))
                            && Halted(config, request.runId, WorldOf(request.runId), r.error)
    {
      hide Acceptable, CanTake, Touches, Appended, WorldIn, Accepted, GoodTables, Trusted, HonestIndex, LedgerSound,
           EventsOf, Inv, Coherent, RaisesOnLoad, Follows, InCall, Executed, IntentOf, ActiveRequest, Next, Recorded,
           MayExecute, GoodEffects, Reported, Halted, UnsafeOpenEffect;
      var run: Name := request.runId;
      ghost var a, w := Facts(), WorldOf(run);
      CoherentReplaysTo(run, w);
      WorldFields(run, a);
      IntentNames(request);
      var executed := executor.Execute(IntentOf(request), events.Log(run));
      ghost var b, v := Facts(), WorldOf(run);
      SoundExecution(config, run, request, a, b, executed);
      ExecutionInTurn(config, run, request, a, b, executed);
      FollowsKeeps(config, run, w, v);
      match executed {
        case Raised(error) =>
          return Raised(error);
        case Crashed =>
          return Crashed;
        case Done(receipt) =>
          r := Report(request, receipt);
          FollowsChain(config, run, w, v, WorldOf(run));
          TouchesChain(run, a, b, Facts());
          InCallChain(w, v, WorldOf(run));
      }
    }

    /** Start the tool unless a restart finds it started, then invoke and report. */
    method Execute(request: ToolRequest, appendStarted: bool) returns (r: Outcome<(RunState, ToolReceipt)>)
      requires Valid() && request.runId != Raw("") && Loads(request.runId) && Coherent(request.runId, WorldOf(request.runId))
      requires ActiveRequest(request.runId, WorldOf(request.runId).log) == Some(request)
      requires if appendStarted then WorldOf(request.runId).state.status.ToolReady?
               else WorldOf(request.runId).state.status.ToolRunning?
      modifies events`tables, events`identities, executor.store, executor.runner
      ensures Valid() && Touches(request.runId, old(Facts()), Facts()) && Loads(request.runId)
      ensures Follows(config, request.runId, old(WorldOf(request.runId)), WorldOf(request.runId))
      ensures InCall(old(WorldOf(request.runId)), WorldOf(request.runId))
      ensures !appendStarted && UnsafeOpenEffect(config, request.runId, old(WorldOf(request.runId))) ==>
                r == Raised(UnsafeToolRetry)
      ensures r.Done? ==> Reported(WorldOf(request.runId), request, r.value.0, r.value.1)
      ensures r.Raised? ==>
                && Halted(config, request.runId, WorldOf(request.runId), r.error)
                && (!appendStarted ==> WorldOf(request.runId) == old(WorldOf(request.runId)))
                && (appendStarted && Inv(request.runId, old(WorldOf(request.runId))) ==> r.error != UnsafeToolRetry)
    {
      hide Acceptable, CanTake, Touches, Appended, WorldIn, Accepted, GoodTables, Trusted, HonestIndex, LedgerSound,
           EventsOf, Inv, Coherent, RaisesOnLoad, Follows, InCall, ActiveRequest, Next, Step, UnsafeOpenEffect,
           Reported;
      var run: Name := request.runId;
      ghost var a, w := Facts(), WorldOf(run);
      FollowsSelf(config, run, w);
      TouchesSelf(run, a);
      InCallSelf(w);
      if appendStarted {
        StartsRun(config, run, w, request);
        var started := AppendGuarded(run, ToolStarted(Str(request.toolCallId)), []);
        if started.Crashed? {
          return Crashed;
        }
      }
      ghost var b, v := Facts(), WorldOf(run);
      r := InvokeAndReport(request);
      FollowsChain(config, run, w, v, WorldOf(run));
      TouchesChain(run, a, b, Facts());
      InCallChain(w, v, WorldOf(run));
    }

    /**
     * Record a request, authorize it, then deny it, open a gate, or execute it.  The request is persisted before
     * anything looks at the run, so the log still replays if and only if the run may take the request.
     */
    method Submit(request: ToolRequest) returns (r: Outcome<ToolResult>)
      requires Valid() && request.runId != Raw("")
      modifies events`tables, events`identities, executor.store, executor.runner
      ensures Valid() && Touches(request.runId, old(Facts()), Facts())
      ensures var run, w := request.runId, old(WorldOf(request.runId));
              if !old(Loads(run)) then Facts() == old(Facts()) && r.Raised?
              else if MayRequest(w.state, request) then Loads(run) && Submitted(config, run, w, WorldOf(run), request, r)
              else
                && Persisted(config, run, old(Facts()), Facts(), RequestPayload(request), [], false)
                && !r.Done? && (r.Raised? ==> r.error == ReplayFailed)
    {
      hide Acceptable, CanTake, Touches, Appended, WorldIn, Accepted, GoodTables, Trusted, HonestIndex, LedgerSound,
           EventsOf, Inv, Coherent, RaisesOnLoad, Follows, SameTurn, InCall, ActiveRequest, Next, Step, MayRequest,
           RequestPayload, Decided, DecisionFollows, Disciplined, Submitted, Joined;
      var run: Name := request.runId;
      ghost var a, w := Facts(), WorldOf(run);
      RequestDecides(config, run, w, request);
      var requested := Append(run, RequestPayload(request), []);
      if !requested.Done? {
        if old(Loads(run)) && MayRequest(w.state, request) {
          RequestOpens(config, run, w, request);
          SubmittedAsFar(config, run, w, request);
        }
        return if requested.Raised? then Raised(requested.error) else Crashed;
      }
      RequestOpens(config, run, w, request);
      ghost var b, v := Facts(), WorldOf(run);
      r := Decide(request);
      TouchesChain(run, a, b, Facts());
      SubmittedBy(config, run, w, WorldOf(run), request, r);
    }

    /** Authorize the request that was just recorded, then deny it, open a gate, or execute it. */
    method Decide(request: ToolRequest) returns (r: Outcome<ToolResult>)
      requires Valid() && request.runId != Raw("") && Loads(request.runId) && Coherent(request.runId, WorldOf(request.runId))
      requires WorldOf(request.runId).state.status.ToolPending?
      requires ActiveRequest(request.runId, WorldOf(request.runId).log) == Some(request)
      modifies events`tables, events`identities, executor.store, executor.runner
      ensures Valid() && Touches(request.runId, old(Facts()), Facts()) && Loads(request.runId)
      ensures Follows(config, request.runId, old(WorldOf(request.runId)), WorldOf(request.runId))
      ensures InCall(old(WorldOf(request.runId)), WorldOf(request.runId))
      ensures DecisionFollows(config, old(WorldOf(request.runId)).log, WorldOf(request.runId).log, request)
      ensures r.Done? ==> Decided(config, WorldOf(request.runId), request, r.value)
      ensures r.Raised? ==>
                && Halted(config, request.runId, WorldOf(request.runId), r.error)
                && (Inv(request.runId, old(WorldOf(request.runId))) ==> r.error != UnsafeToolRetry)
    {
      hide Acceptable, CanTake, Touches, Appended, WorldIn, Accepted, GoodTables, Trusted, HonestIndex, LedgerSound,
           EventsOf, Inv, Coherent, RaisesOnLoad, Follows, InCall, ActiveRequest, Next, Step, ReferenceIsActive,
           BuildProposal, GateOpened, UnsafeOpenEffect, Halted, Reported, DecisionFollows, DecisionPayload, DecisionRest;
      var run: Name := request.runId;
      ghost var a, w := Facts(), WorldOf(run);
      DecisionStep(config, run, w, request);
      var decision := config.authorize(request);
      var decided := AppendGuarded(run, DecisionPayload(config, request), DecisionRest(config, request));
      DecisionIsFollowed(config, run, w, WorldOf(run), request);
      if decided.Crashed? {
        return Crashed;
      }
      match decision {
        case Deny(reason) =>
          return Done(ToolResult(DENIED, decided.value, Some(decision), None, None, None, None));
        case Escalate(mode, paths, reasons) =>
          var proposal := BuildProposal(request, mode, paths, reasons, 1);
          BuiltShows(request, mode, paths, reasons, 1);
          return Done(ToolResult(AWAITING_GATE, decided.value, Some(decision), Some(proposal), None, None, None));
        case Allow(_) =>
          ghost var b, v := Facts(), WorldOf(run);
          var executed := Execute(request, true);
          FollowsChain(config, run, w, v, WorldOf(run));
          TouchesChain(run, a, b, Facts());
          InCallChain(w, v, WorldOf(run));
          LogsOfCall(v, WorldOf(run));
          DecisionIsFollowed(config, run, w, WorldOf(run), request);
          var reported :- executed;
          ReportedState(WorldOf(run), request, reported.0, reported.1);
          return Done(ToolResult(EXECUTED, reported.0, Some(decision), None, None, None, Some(reported.1)));
      }
    }

    // ----- Gates -----

    /** The latest stored request of the call: in a tool phase, the request in force. */
    method LoadActiveRequest(run: Name, call: Text) returns (r: Outcome<ToolRequest>)
      requires Valid()
      ensures !r.Crashed? && (r.Done? ==> r.value.runId == run && r.value.toolCallId == call)
      ensures var w := WorldOf(run);
              Coherent(run, w) && InToolPhase(w.state.status) && w.state.activeToolCallId == Some(call) ==>
                r == match ActiveRequest(run, w.log)
                     case Some(request) => Done(request)
                     case None => Raised(GateReferenceMismatch)
    {
      hide WorldIn, Accepted, GoodTables, Trusted, HonestIndex, LedgerSound, EventsOf, Coherent, IsLastMatch,
           ActiveRequest, Matches, LastOf;
      ghost var w := WorldOf(run);
      WorldFields(run, Facts());
      var log := events.LoadTail(run, 0);
      var i := FindLast(log, RequestOfCall(call));
      MatchBounds(log, RequestOfCall(call), i);
      if Coherent(run, w) && InToolPhase(w.state.status) && w.state.activeToolCallId == Some(call) {
        RequestFound(run, w, i);
      }
      if i < 0 {
        return Raised(GateReferenceMismatch);
      }
      var request := RequestOf(run, log[i].payload);
      return if request.Some? then Done(request.value) else Raised(GateReferenceMismatch);
    }

    /** The stored proposal of the reference: while its gate waits, the newest one. */
    method LoadActiveProposal(request: ToolRequest, reference: GateReference) returns (r: Outcome<GateProposal>)
      requires Valid() && request.runId != Raw("") && request.toolCallId == reference.toolCallId
      ensures Coherent(request.runId, WorldOf(request.runId)) && ReferenceIsActive(WorldOf(request.runId).state, reference) ==>
                r == match ProposalInForce(WorldOf(request.runId), request, reference)
                     case Some(proposal) => Done(proposal)
                     case None => Raised(GateReferenceMismatch)
    {
      hide WorldIn, Accepted, GoodTables, Trusted, HonestIndex, LedgerSound, EventsOf, Coherent, IsLastMatch,
           ProposalInForce, ReferenceIsActive, AreTexts, Matches;
      var run: Name := request.runId;
      ghost var w := WorldOf(run);
      WorldFields(run, Facts());
      var log := events.LoadTail(run, 0);
      var i := FindLast(log, ProposalNamed(reference));
      MatchBounds(log, ProposalNamed(reference), i);
      if Coherent(run, w) && ReferenceIsActive(w.state, reference) {
        ProposalRead(run, w, request, reference, i);
      }
      if i < 0 {
        return Raised(GateReferenceMismatch);
      }
      var p := log[i].payload;
      if !AreTexts(p.reasons) || !IsText(p.ownershipMode) {
        return Raised(GateReferenceMismatch);
      }
      return Done(GateProposal(reference, request.stepId, request.toolName, request.argumentsJson,
                               p.ownershipMode.text, p.reasons));
    }

    /** Approve or reject the waiting proposal; on approval execute exactly the stored request. */
    method ResolveGate(reference: GateReference, approve: bool, actor: Name, reason: Name) returns (r: Outcome<ToolResult>)
      requires Valid() && reference.runId != Raw("")
      modifies events`tables, events`identities, executor.store, executor.runner
      ensures Valid() && Touches(reference.runId, old(Facts()), Facts())
      ensures var run, w := reference.runId, old(WorldOf(reference.runId));
              if !old(Loads(run)) then Facts() == old(Facts()) && r.Raised?
              else if !MayResolve(config, run, w, reference, approve) then
                && Facts() == old(Facts())
                && r == Raised(if ReferenceIsActive(w.state, reference) && approve && IsUserGate(w.state)
                               then InvalidTransitionError else GateReferenceMismatch)
              else if approve then
                var cleared := Appended(config, run, w, ApprovalPayload(reference), [Str(actor), Str(reason)]);
                Loads(run) && WentOn(config, run, w, cleared, WorldOf(run), r, None, None)
              else
                && Loads(run) && (Inv(run, w) ==> Inv(run, WorldOf(run)))
                && WorldOf(run) == Appended(config, run, w, RejectionPayload(reference, reason), [Str(actor)])
                && WorldOf(run).state.status.Failed? && WorldOf(run).state.failureReason == Some(reason)
                && (r == Crashed || r == Done(ToolResult(REJECTED, WorldOf(run).state, None, None, None, None, None)))
    {
      hide Acceptable, CanTake, Touches, Appended, WorldIn, Accepted, GoodTables, Trusted, HonestIndex, LedgerSound,
           EventsOf, Inv, Coherent, RaisesOnLoad, Follows, SameTurn, Next, ActiveRequest, ReferenceIsActive,
           PolicyStands, IsUserGate, WentOn, AuthorizedToolRuntime.Valid, AuthorizedToolRuntime.Loads,
           AuthorizedToolRuntime.Facts;
      var run: Name := reference.runId;
      ghost var a, w := Facts(), WorldOf(run);
      TouchesSelf(run, a);
      var state :- LoadState(run);
      if !ReferenceIsActive(state, reference) {
        return Raised(GateReferenceMismatch);
      }
      if approve && IsUserGate(state) {
        return Raised(InvalidTransitionError);
      }
      GateIsToolPhase(run, w, reference);
      var request :- LoadActiveRequest(run, reference.toolCallId);
      if !approve {
        RejectionIsAcceptable(config, run, w, reference, reason, [Str(actor)]);
        var rejected :- AppendGuarded(run, RejectionPayload(reference, reason), [Str(actor)]);
        return Done(ToolResult(REJECTED, rejected, None, None, None, None, None));
      }
      if !PolicyStands(config, request, reference) {
        return Raised(GateReferenceMismatch);
      }
      ApprovalClears(config, run, w, reference, request, [Str(actor), Str(reason)]);
      var approved := AppendGuarded(run, ApprovalPayload(reference), [Str(actor), Str(reason)]);
      if approved.Crashed? {
        WentAsFar(config, run, w, WorldOf(run), None, None);
        return Crashed;
      }
      r := ExecuteCleared(request, a, None, None);
    }

    /** Execute a request whose gate has just been cleared. */
    method ExecuteCleared(request: ToolRequest, ghost a: Storage, evaluation: Option<GateEvaluation>, attempt: Option<int>)
      returns (r: Outcome<ToolResult>)
      requires Valid() && request.runId != Raw("") && Loads(request.runId) && Coherent(request.runId, WorldOf(request.runId))
      requires ActiveRequest(request.runId, WorldOf(request.runId).log) == Some(request)
      requires WorldOf(request.runId).state.status.ToolReady?
      requires Touches(request.runId, a, Facts())
      requires ActiveRequest(request.runId, WorldIn(a, request.runId).log) == Some(request)
      requires Inv(request.runId, WorldIn(a, request.runId)) ==> Inv(request.runId, WorldOf(request.runId))
      modifies events`tables, events`identities, executor.store, executor.runner
      ensures Valid() && Touches(request.runId, a, Facts()) && Loads(request.runId)
      ensures WentOn(config, request.runId, WorldIn(a, request.runId), old(WorldOf(request.runId)), WorldOf(request.runId), r,
                     evaluation, attempt)
    {
      hide Acceptable, CanTake, Touches, Appended, WorldIn, Accepted, GoodTables, Trusted, HonestIndex, LedgerSound,
           EventsOf, Inv, Coherent, RaisesOnLoad, Follows, SameTurn, Next, ActiveRequest, UnsafeOpenEffect, Halted;
      ghost var b := Facts();
      var executed := Execute(request, true);
      TouchesChain(request.runId, a, b, Facts());
      var reported :- executed;
      return Done(ToolResult(EXECUTED, reported.0, Some(config.authorize(request)), None, evaluation, attempt,
                             Some(reported.1)));
    }

    /** Evaluate one answer to the waiting user gate and persist the attempt. */
    method SubmitGateAnswer(reference: GateReference, actor: Name, answer: Text) returns (r: Outcome<ToolResult>)
      requires Valid() && reference.runId != Raw("")
      modifies events`tables, events`identities, executor.store, executor.runner
      ensures Valid() && Touches(reference.runId, old(Facts()), Facts())
      ensures var run, w := reference.runId, old(WorldOf(reference.runId));
              if !old(Loads(run)) then Facts() == old(Facts()) && r.Raised?
              else if !MayAnswer(config, run, w, reference) then
                && Facts() == old(Facts())
                && r == Raised(if ReferenceIsActive(w.state, reference) && !IsUserGate(w.state)
                               then InvalidTransitionError else GateReferenceMismatch)
              else Loads(run) && Answered(config, run, w, reference, actor, answer, WorldOf(run), r)
    {
      hide Acceptable, CanTake, Touches, Appended, WorldIn, Accepted, GoodTables, Trusted, HonestIndex, LedgerSound,
           EventsOf, Inv, Coherent, RaisesOnLoad, Follows, SameTurn, Next, ActiveRequest, ReferenceIsActive,
           PolicyStands, IsUserGate, WentOn, ProposalInForce, EvaluationPayload, Answered, Settled,
           AuthorizedToolRuntime.Valid, AuthorizedToolRuntime.Loads, AuthorizedToolRuntime.Facts;
      var run: Name := reference.runId;
      ghost var a, w := Facts(), WorldOf(run);
      TouchesSelf(run, a);
      var state :- LoadState(run);
      if !ReferenceIsActive(state, reference) {
        return Raised(GateReferenceMismatch);
      }
      GateIsToolPhase(run, w, reference);
      if !IsUserGate(state) || state.activeGateMaxAttempts.None? {
        return Raised(InvalidTransitionError);
      }
      var request :- LoadActiveRequest(run, reference.toolCallId);
      var proposal :- LoadActiveProposal(request, reference);
      if !PolicyStands(config, request, reference) {
        return Raised(GateReferenceMismatch);
      }
      var attempt, limit := state.activeGateAttempts + 1, state.activeGateMaxAttempts.value;
      var evaluation := Settled(config.evaluateGate(proposal, answer), attempt, limit);
      AnswerSettles(config, run, w, reference, request, config.evaluateGate(proposal, answer), [Str(actor), Str(answer)]);
      var payload := EvaluationPayload(reference, attempt, limit, evaluation);
      var evaluated := AppendGuarded(run, payload, [Str(actor), Str(answer)]);
      if evaluated.Crashed? {
        WentAsFar(config, run, w, WorldOf(run), Some(evaluation), Some(attempt));
        AnsweredBy(config, run, w, reference, actor, answer, WorldOf(run), Crashed);
        return Crashed;
      }
      match evaluation.outcome {
        case Passes =>
          r := ExecuteCleared(request, a, Some(evaluation), Some(attempt));
        case Retries =>
          r := Done(ToolResult(GATE_RETRY, evaluated.value, Some(config.authorize(request)), Some(proposal),
                               Some(evaluation), Some(attempt), None));
        case Blocks =>
          r := Done(ToolResult(BLOCKED, evaluated.value, Some(config.authorize(request)), Some(proposal),
                               Some(evaluation), Some(attempt), None));
      }
      AnsweredBy(config, run, w, reference, actor, answer, WorldOf(run), r);
    }

    /**
     * Replace the waiting proposal under the current policy.  The log still replays if and only if the new digest
     * is a new one, which it is wherever the runtime opened the gate.
     */
    method ReviseGate(reference: GateReference) returns (r: Outcome<ToolResult>)
      requires Valid() && reference.runId != Raw("")
      modifies events`tables, events`identities
      ensures Valid() && Touches(reference.runId, old(Facts()), Facts())
      ensures var run, w := reference.runId, old(WorldOf(reference.runId));
              if !old(Loads(run)) then Facts() == old(Facts()) && r.Raised?
              else if !MayRevise(config, run, w, reference) then Facts() == old(Facts()) && r == Raised(GateReferenceMismatch)
              else
                && var request := ActiveRequest(run, w.log).value; var d := config.authorize(request);
                && var proposal := BuildProposal(request, d.mode, d.paths, d.reasons, reference.revision + 1);
                && var isNew := proposal.reference.proposalDigest != reference.proposalDigest;
                && Persisted(config, run, old(Facts()), Facts(),
                             RevisionPayload(config, reference, request, d.mode, d.paths, d.reasons), [], isNew)
                && (Inv(run, w) ==> isNew)
                && (isNew ==>
                      && Loads(run) && !ReferenceIsActive(WorldOf(run).state, reference)
                      && GateOpened(config, WorldOf(run), request, proposal, d.mode, d.paths, d.reasons, reference.revision + 1))
                && Answers(r, isNew, ToolResult(AWAITING_GATE, WorldOf(run).state, Some(d), Some(proposal), None, None, None))
    {
      hide Acceptable, CanTake, Touches, Appended, WorldIn, Accepted, GoodTables, Trusted, HonestIndex, LedgerSound,
           EventsOf, Inv, Coherent, RaisesOnLoad, Follows, SameTurn, Next, ActiveRequest, ProposalDigest,
           RevisionPayload, Disciplined, Joined, AuthorizedToolRuntime.Valid;
      var run: Name := reference.runId;
      ghost var w := WorldOf(run);
      TouchesSelf(run, Facts());
      var state :- LoadState(run);
      if !ReferenceIsActive(state, reference) {
        return Raised(GateReferenceMismatch);
      }
      GateIsToolPhase(run, w, reference);
      var request :- LoadActiveRequest(run, reference.toolCallId);
      var decision := config.authorize(request);
      if !decision.Escalate? {
        return Raised(GateReferenceMismatch);
      }
      var proposal := BuildProposal(request, decision.mode, decision.paths, decision.reasons, reference.revision + 1);
      RevisionComesTo(config, run, w, reference, request);
      var payload := RevisionPayload(config, reference, request, decision.mode, decision.paths, decision.reasons);
      var revised :- Append(run, payload, []);
      return Done(ToolResult(AWAITING_GATE, revised, Some(decision), Some(proposal), None, None, None));
    }

    // ----- Recovery and snapshots -----

    /** Continue an approved or started effect after a restart. */
    method Recover(run: Name) returns (r: Outcome<ToolResult>)
      requires Valid()
      modifies events`tables, events`identities, executor.store, executor.runner
      ensures Valid() && Touches(run, old(Facts()), Facts())
      ensures var w := old(WorldOf(run));
              if !old(Loads(run)) then Facts() == old(Facts()) && r.Raised?
              else if !w.state.status.ToolReady? && !w.state.status.ToolRunning? then
                Facts() == old(Facts()) && r == Raised(InvalidTransitionError)
              else if ActiveRequest(run, w.log).None? then Facts() == old(Facts()) && r == Raised(GateReferenceMismatch)
              else
                && Loads(run) && Follows(config, run, w, WorldOf(run))
                && (UnsafeOpenEffect(config, run, w) ==> r == Raised(UnsafeToolRetry))
                && (r.Done? ==>
                      && r.value.receipt.Some?
                      && r.value == ToolResult(EXECUTED, r.value.state, None, None, None, None, r.value.receipt)
                      && Reported(WorldOf(run), ActiveRequest(run, w.log).value, r.value.state, r.value.receipt.value))
                && (r.Raised? ==>
                      && Halted(config, run, WorldOf(run), r.error)
                      && (Inv(run, w) && r.error == UnsafeToolRetry ==> WorldOf(run) == w))
    {
      hide Acceptable, CanTake, Touches, Appended, WorldIn, Accepted, GoodTables, Trusted, HonestIndex, LedgerSound,
           EventsOf, Inv, Coherent, RaisesOnLoad, Follows, SameTurn, Next, ActiveRequest, Reported, Halted, IntentOf;
      ghost var w := WorldOf(run);
      TouchesSelf(run, Facts());
      var state :- LoadState(run);
      if !state.status.ToolReady? && !state.status.ToolRunning? {
        return Raised(InvalidTransitionError);
      }
      CallIsActive(run, w);
      if state.activeToolCallId.None? {
        return Raised(InvalidTransitionError);
      }
      var request :- LoadActiveRequest(run, state.activeToolCallId.value);
      var reported :- Execute(request, state.status.ToolReady?);
      return Done(ToolResult(EXECUTED, reported.0, None, None, None, None, Some(reported.1)));
    }

    /** Save a disposable accelerator for a run that replays. */
    method CreateSnapshot(run: Name) returns (r: Outcome<RunState>)
      requires Valid()
      modifies events`snapshots, events`savedFor, events`struck
      ensures Valid() && Facts() == old(Facts())
      ensures if !useSnapshots then r == Raised(SnapshotNotSaved) && events.snapshots == old(events.snapshots)
              else match ReplayRun(run, events.Log(run))
                   case Err(_) => r == Raised(ReplayFailed) && events.snapshots == old(events.snapshots)
                   case Ok(state) =>
                     && (r == Crashed || r == Done(state))
                     && SnapshotOf(events.Rows(run), state).Some?
                     && events.snapshots == old(events.snapshots)[run := SnapshotOf(events.Rows(run), state).value]
                     && run !in events.struck && run in events.savedFor && events.savedFor[run].1 == state
    {
      hide GoodTables, Trusted, EventsOf, HonestIndex, LedgerSound, Fold, SnapshotOf, StoredRows;
      if !useSnapshots {
        return Raised(SnapshotNotSaved);
      }
      var log := events.LoadTail(run, 0);
      var replayed := ReplayTail(Initial(run), log);
      if replayed.Err? {
        return Raised(ReplayFailed);
      }
      StoredRun(events.tables, events.identities, run);
      ReplayedSnapshot(run, events.Rows(run));
      var saved := events.SaveSnapshot(replayed.value);
      if * {
        return Crashed;
      }
      return Done(replayed.value);
    }
  }

  /** A call that stopped right after its gate was cleared. */
  lemma WentAsFar(cfg: Config, run: Name, before: World, cleared: World, evaluation: Option<GateEvaluation>, attempt: Option<int>)
    requires Coherent(run, cleared) && (Inv(run, before) ==> Inv(run, cleared))
    ensures WentOn(cfg, run, before, cleared, cleared, Crashed, evaluation, attempt)
  {
    hide Inv, Coherent, Follows;
    FollowsSelf(cfg, run, cleared);
  }

  /** What an answer comes to, by its settled evaluation. */
  lemma AnsweredBy(cfg: Config, run: Name, w: World, r: GateReference, actor: Name, answer: Text, after: World,
                   outcome: Outcome<ToolResult>)
    requires MayAnswer(cfg, run, w, r) && w.state.activeGateMaxAttempts.Some?
    requires var request := ActiveRequest(run, w.log).value; var proposal := ProposalInForce(w, request, r).value;
             var attempt, limit := w.state.activeGateAttempts + 1, w.state.activeGateMaxAttempts.value;
             var e := Settled(cfg.evaluateGate(proposal, answer), attempt, limit);
             var evaluated := Appended(cfg, run, w, EvaluationPayload(r, attempt, limit, e), [Str(actor), Str(answer)]);
             if e.outcome == Passes then WentOn(cfg, run, w, evaluated, after, outcome, Some(e), Some(attempt))
             else
               && after == evaluated && (Inv(run, w) ==> Inv(run, after))
               && (if e.outcome == Retries then WaitsAgain(w.state, after.state) && ProposalInForce(after, request, r) == Some(proposal)
                   else after.state.status.Failed? && after.state.failureReason == Some(e.reason))
               && (outcome == Crashed
                   || outcome == Done(ToolResult(if e.outcome == Retries then GATE_RETRY else BLOCKED, after.state,
                                                 Some(cfg.authorize(request)), Some(proposal), Some(e), Some(attempt), None)))
    ensures Answered(cfg, run, w, r, actor, answer, after, outcome)
  {
    hide Inv, WentOn, Appended, EvaluationPayload, ActiveRequest, ProposalInForce, PolicyStands, ReferenceIsActive,
         Settled;
  }

  /** What persisting a proposal comes to. */
  lemma ProposalComesTo(cfg: Config, run: Name, w: World, context: ModelInput, invocation: Text, action: ModelAction)
    requires Coherent(run, w) && MayPropose(w.state, context, invocation)
    ensures var p := ProposalPayload(invocation, w.state.turnIndex, action);
            && CanTake(cfg, run, w, p, []) && Disciplined(run, w, p)
            && Appended(cfg, run, w, p, []).state.status.ActionPending?
            && match action
               case ToolCallAction(call, tool, arguments) =>
                 p == ModelActionProposed(Str(invocation), Str(context.stepId), Int(context.turnIndex), Str(Literal(TOOL_CALL)),
                                          Str(call), Str(tool), Str(arguments), Missing)
               case FinalAnswerAction(answer) =>
                 p == ModelActionProposed(Str(invocation), Str(context.stepId), Int(context.turnIndex),
                                          Str(Literal(FINAL_ANSWER)), Missing, Missing, Missing, Str(answer))
  {
    hide Acceptable, CanTake, Appended, Coherent, Disciplined;
    ProposalNamesStep(run, w, context, invocation);
    ProposalIsAcceptable(cfg, run, w, invocation, action);
    AcceptableIsTaken(cfg, run, w, ProposalPayload(invocation, w.state.turnIndex, action), []);
  }

  /** What a revision comes to. */
  lemma RevisionComesTo(cfg: Config, run: Name, w: World, r: GateReference, request: ToolRequest)
    requires Coherent(run, w) && ReferenceIsActive(w.state, r) && r.revision >= 1 && cfg.authorize(request).Escalate?
    requires request.toolCallId == r.toolCallId
    requires ActiveRequest(run, w.log) == Some(request)
    ensures var d := cfg.authorize(request);
            var proposal := BuildProposal(request, d.mode, d.paths, d.reasons, r.revision + 1);
            var p := RevisionPayload(cfg, r, request, d.mode, d.paths, d.reasons);
            && Disciplined(run, w, p)
            && (CanTake(cfg, run, w, p, []) <==> proposal.reference.proposalDigest != r.proposalDigest)
            && (Inv(run, w) ==> CanTake(cfg, run, w, p, []))
            && (CanTake(cfg, run, w, p, []) ==>
                  && !ReferenceIsActive(Appended(cfg, run, w, p, []).state, r)
                  && GateOpened(cfg, Appended(cfg, run, w, p, []), request, proposal, d.mode, d.paths, d.reasons, r.revision + 1))
  {
    hide Coherent, CanTake, Appended, ActiveRequest, ProposalDigest, RevisionPayload, TurnFacts, EffectFacts, Disciplined,
         GateOpened, ProposalInForce, AreTexts;
    var d := cfg.authorize(request);
    RevisionDecides(cfg, run, w, r, request, d.mode, d.paths, d.reasons);
    if Inv(run, w) {
      RevisionIsNew(run, w, r, request, d.mode, d.paths);
    }
    if CanTake(cfg, run, w, RevisionPayload(cfg, r, request, d.mode, d.paths, d.reasons), []) {
      RevisionOpens(cfg, run, w, r, request, d.mode, d.paths, d.reasons);
      RevisedProposal(cfg, run, w, r, request);
    }
  }

  lemma RevisedProposal(cfg: Config, run: Name, w: World, r: GateReference, request: ToolRequest)
    requires Coherent(run, w) && r.revision >= 1 && cfg.authorize(request).Escalate? && request.toolCallId == r.toolCallId
    requires var d := cfg.authorize(request); var p := RevisionPayload(cfg, r, request, d.mode, d.paths, d.reasons);
             && CanTake(cfg, run, w, p, [])
             && ReferenceIsActive(Appended(cfg, run, w, p, []).state,
                                  BuildProposal(request, d.mode, d.paths, d.reasons, r.revision + 1).reference)
             && IsFresh(cfg, Appended(cfg, run, w, p, []).state, d.mode)
    ensures var d := cfg.authorize(request); var p := RevisionPayload(cfg, r, request, d.mode, d.paths, d.reasons);
            GateOpened(cfg, Appended(cfg, run, w, p, []), request,
                       BuildProposal(request, d.mode, d.paths, d.reasons, r.revision + 1), d.mode, d.paths, d.reasons, r.revision + 1)
  {
    hide Coherent, CanTake, Appended, ProposalDigest, GateOpened, ProposalInForce, AreTexts, ReferenceIsActive, IsFresh;
    var d := cfg.authorize(request);
    var p := RevisionPayload(cfg, r, request, d.mode, d.paths, d.reasons);
    var proposal := BuildProposal(request, d.mode, d.paths, d.reasons, r.revision + 1);
    ProposalAfter(cfg, run, w, request, proposal.reference, p, []);
    OpenedGate(cfg, Appended(cfg, run, w, p, []), request, d.mode, d.paths, d.reasons, r.revision + 1);
  }

  lemma CallIsActive(run: Name, w: World)
    requires Coherent(run, w) && InToolPhase(w.state.status)
    ensures w.state.activeToolCallId.Some?
    ensures ActiveRequest(run, w.log).Some? ==> ActiveRequest(run, w.log).value.runId == run
  {
    hide Coherent, ActiveRequest;
    CoherentShape(run, w);
    if ActiveRequest(run, w.log).Some? {
      OwnIntent(run, w, ActiveRequest(run, w.log).value);
    }
  }

  lemma ReportedState(w: World, request: ToolRequest, state: RunState, receipt: ToolReceipt)
    requires Reported(w, request, state, receipt)
    ensures state == w.state
  {
    hide ActiveRequest;
  }

  /** A submission that stopped right after its request was recorded. */
  lemma SubmittedAsFar(cfg: Config, run: Name, w: World, request: ToolRequest)
    requires var v := Appended(cfg, run, w, RequestPayload(request), []);
             Coherent(run, v) && (Inv(run, w) ==> Inv(run, v)) && SameTurn(w, v)
    ensures var v := Appended(cfg, run, w, RequestPayload(request), []);
            Submitted(cfg, run, w, v, request, Crashed) && Coherent(run, v)
  {
    hide Inv, Appended, RequestPayload, SameTurn, Follows, Coherent;
    InCallSelf(Appended(cfg, run, w, RequestPayload(request), []));
    FollowsSelf(cfg, run, Appended(cfg, run, w, RequestPayload(request), []));
  }

  lemma SubmittedBy(cfg: Config, run: Name, w: World, after: World, request: ToolRequest, r: Outcome<ToolResult>)
    requires var v := Appended(cfg, run, w, RequestPayload(request), []);
             && (Inv(run, w) ==> Inv(run, v)) && SameTurn(w, v)
             && Follows(cfg, run, v, after) && InCall(v, after) && DecisionFollows(cfg, v.log, after.log, request)
             && (r.Raised? ==> Halted(cfg, run, after, r.error) && (Inv(run, v) ==> r.error != UnsafeToolRetry))
    requires r.Done? ==> Decided(cfg, after, request, r.value)
    ensures Submitted(cfg, run, w, after, request, r)
  {
    hide Inv, Appended, RequestPayload, Follows, Halted, Decided, SameTurn, Coherent, DecisionFollows;
    var v := Appended(cfg, run, w, RequestPayload(request), []);
    SameTurnChain(w, v, after);
    FollowsKeeps(cfg, run, v, after);
  }

  lemma ReturnedBySound(registry: Text -> Option<bool>, st: Storage, id: Text)
    requires LedgerSound(registry, st) && id in st.fx.receipts && st.fx.receipts[id].outcome == SUCCEEDED
    ensures Returned(st.fx, st.fx.receipts[id])
  {
    hide AtMostOnce, JustifiedLedger, Witnessed, Returned;
    SuccessIsReturned(st.fx, id);
  }

  lemma WorldFields(run: Text, st: Storage)
    ensures WorldIn(st, run).log == LogIn(st, run) && WorldIn(st, run).state == StateOf(run, LogIn(st, run))
    ensures WorldIn(st, run).intents == st.fx.intents && WorldIn(st, run).receipts == st.fx.receipts
  {
    hide LogIn, StateOf;
  }

  lemma JoinedKeepsLedger(cfg: Config, run: Text, a: Storage, b: Storage, p: Payload, rest: seq<Val>)
    requires Joined(cfg, run, a, b, p, rest) && LedgerSound(cfg.registry, a)
    ensures LedgerSound(cfg.registry, b) && HonestIndex(b.identities) && b.fx == a.fx
  {
    hide LogIn, HonestIndex, Stamp, AtMostOnce, Witnessed, JustifiedLedger;
    JoinedTouches(cfg, run, a, b, p, rest);
    LedgerStays(run, a, b);
  }

  lemma PersistedFields(cfg: Config, run: Text, a: Storage, b: Storage, p: Payload, rest: seq<Val>, legal: bool)
    requires Persisted(cfg, run, a, b, p, rest, legal)
    ensures Accepted(run, LogIn(b, run)) <==> legal
  {
    hide LogIn, Accepted, Joined;
  }
}
