/** Runs that can be written down, as inputs for the claims that need one (tests/test_tool_recovery.py). */
module ConcreteRuns {
  import opened Values
  import opened Events
  import opened RunStates
  import opened Reducer
  import opened ToolEffects
  import opened Protocol
  import opened RunInvariant
  import opened Continuation
  import opened Guards
  import opened Recovery
  import opened Storages
  import opened OperationSteps

  /** A run before its first event, over empty effect tables. */
  function EmptyRun(run: Text): World {
    World([], Initial(run), map[], map[])
  }

  /** A run that was created. */
  function CreatedRun(cfg: Config, run: Text, maxSteps: Positive): World {
    Appended(cfg, run, EmptyRun(run), RunCreated(Int(maxSteps)), [])
  }

  /** A run that was created and started. */
  function StartedRun(cfg: Config, run: Text, maxSteps: Positive): World {
    Appended(cfg, run, CreatedRun(cfg, run, maxSteps), RunStarted, [])
  }

  lemma CreatedIsKept(cfg: Config, run: Name, maxSteps: Positive)
    ensures var w := CreatedRun(cfg, run, maxSteps);
            && Inv(run, w) && w.state.status.Created? && w.state.maxSteps == Some(maxSteps) && w.state.turnIndex == 0
            && w.log == [Stamp(cfg, run, 0, RunCreated(Int(maxSteps)), [])] && w.intents == map[] && w.receipts == map[]
  {
    hide KindOf, Inv, Disciplined;
    EmptyInv(run, map[], map[]);
    CreationIsPlain(run, EmptyRun(run), RunCreated(Int(maxSteps)));
    AppendKeepsInvariant(cfg, run, EmptyRun(run), RunCreated(Int(maxSteps)), []);
  }

  lemma CreationIsPlain(run: Text, w: World, p: Payload)
    requires p.RunCreated? || p.RunStarted?
    ensures Disciplined(run, w, p)
  {
  }

  lemma StartedIsReady(cfg: Config, run: Name, maxSteps: Positive)
    ensures var w := StartedRun(cfg, run, maxSteps);
            && Bounded(run, w) && w.state.status.Ready? && w.state.maxSteps == Some(maxSteps) && w.state.turnIndex == 0
            && w.intents == map[] && w.receipts == map[]
  {
    hide KindOf, Inv, Disciplined, CreatedRun;
    CreatedIsKept(cfg, run, maxSteps);
    var w := CreatedRun(cfg, run, maxSteps);
    CreationIsPlain(run, w, RunStarted);
    AppendKeepsInvariant(cfg, run, w, RunStarted, []);
  }

  /**
   * `begin_model_action` takes a context with any observation in a run that was just started: the run keeps its
   * promises, but its turn is not on the log's own observation.
   */
  lemma BegunOnAnother(cfg: Config, run: Name, maxSteps: Positive, observation: Name)
    requires observation != EmptyObjectJson
    ensures var w := StartedRun(cfg, run, maxSteps);
            var v := Appended(cfg, run, w, AskPayload(run, 0, observation), []);
            && MayBegin(w.state, TurnInput(run, w).(observationJson := observation)) && Observed(w)
            && Inv(run, v) && v.state.status.ModelPending? && !Observed(v)
  {
    hide StartedRun, Inv, Transition, CanTake, Disciplined, Appended, Observe, AskPayload, KindOf;
    StartedIsReady(cfg, run, maxSteps);
    var w := StartedRun(cfg, run, maxSteps);
    var p := AskPayload(run, 0, observation);
    AskDecides(cfg, run, w, observation);
    AskIsDisciplined(run, w, observation);
    AppendKeepsInvariant(cfg, run, w, p, []);
    AppendedMoves(cfg, run, w, p, []);
    LastOfAppended(cfg, run, w, p, []);
    NothingObserved(cfg, run, maxSteps, observation);
  }

  lemma NothingObserved(cfg: Config, run: Name, maxSteps: Positive, observation: Name)
    ensures Observe(Appended(cfg, run, StartedRun(cfg, run, maxSteps), AskPayload(run, 0, observation), []).log) ==
            EmptyObjectJson
  {
    hide Transition, KindOf;
    CreatedIsKept(cfg, run, maxSteps);
    var created := CreatedRun(cfg, run, maxSteps);
    var started := StartedRun(cfg, run, maxSteps);
    LastOfAppended(cfg, run, created, RunStarted, []);
    LastOfAppended(cfg, run, started, AskPayload(run, 0, observation), []);
    assert Observe([]) == EmptyObjectJson && [] + created.log == created.log;
    ObserveStays([], created.log[0]);
    ObserveStays(created.log, started.log[|created.log|]);
    ObserveStays(started.log, Stamp(cfg, run, |started.log|, AskPayload(run, 0, observation), []));
  }

  // ----- The uninterrupted run passes through every way of being stuck -----

  /** The world after n steps of the uninterrupted run, or where it ends before. */
  function AfterSteps(cfg: Config, run: Text, w: World, n: nat): World {
    if n == 0 then w
    else
      var v := AfterSteps(cfg, run, w, n - 1);
      if Next(cfg, run, v).None? then v else Step(cfg, run, v)
  }

  lemma {:induction false} AfterStepsIsAlong(cfg: Config, run: Text, w: World, n: nat)
    requires Bounded(run, w)
    ensures Along(cfg, run, w, AfterSteps(cfg, run, w, n))
    ensures Observed(w) ==> Observed(AfterSteps(cfg, run, w, n))
  {
    hide Bounded, Next, Step, Finish, EventsLeft, Observed;
    if n == 0 {
      AlongSelf(cfg, run, w);
    } else {
      AfterStepsIsAlong(cfg, run, w, n - 1);
      var v := AfterSteps(cfg, run, w, n - 1);
      assert Bounded(run, v);
      if Next(cfg, run, v).Some? {
        AlongStep(cfg, run, v);
        AlongChain(cfg, run, w, v, Step(cfg, run, v));
        StepKeepsObserved(cfg, run, v);
      }
    }
  }

  lemma StepKeepsObserved(cfg: Config, run: Text, w: World)
    requires Bounded(run, w) && Next(cfg, run, w).Some?
    ensures Observed(w) ==> Observed(Step(cfg, run, w))
  {
    hide Inv, Next, Step, Acceptable, Follows, Observed;
    InvIsCoherent(run, w);
    if Next(cfg, run, w).value.AppendEvent? {
      NextIsAcceptable(cfg, run, w);
    }
    FollowsStep(cfg, run, w);
    FollowsKeeps(cfg, run, w, Step(cfg, run, w));
  }

  /** The adapter answers the run's current turn with the call, and the policy allows calls of its tool. */
  ghost predicate WillCall(cfg: Config, run: Text, w: World, call: ModelAction) {
    && call.ToolCallAction? && cfg.adapter(TurnInput(run, w)) == Proposes(call)
    && (forall request: ToolRequest :: request.toolName == call.toolName ==> cfg.authorize(request).Allow?)
  }

  lemma Asks(cfg: Config, run: Name, w: World, call: ModelAction)
    requires Bounded(run, w) && w.state.status.Ready? && HasBudget(w.state) && WillCall(cfg, run, w, call)
    ensures Next(cfg, run, w).Some?
    ensures var v := Step(cfg, run, w);
            && v.state.status.ModelPending? && WillCall(cfg, run, v, call)
            && v.intents == w.intents && v.receipts == w.receipts
  {
    hide Inv, Acceptable, Appended, Observe, TurnInput, AskPayload, Next;
    InvIsCoherent(run, w);
    AskIsAcceptable(cfg, run, w);
    var p := AskPayload(run, w.state.turnIndex, Observe(w.log));
    LastOfAppended(cfg, run, w, p, []);
    SameInputs(run, w, Appended(cfg, run, w, p, []), Raw(""));
  }

  lemma Proposed(cfg: Config, run: Name, w: World, call: ModelAction)
    requires Bounded(run, w) && w.state.status.ModelPending? && WillCall(cfg, run, w, call)
    ensures Next(cfg, run, w).Some?
    ensures var v := Step(cfg, run, w);
            && v.state.status.ActionPending? && v.log != [] && ActionOf(v.log[|v.log| - 1].payload) == Some(call)
            && v.intents == w.intents && v.receipts == w.receipts
  {
    hide Inv, Acceptable, Appended, Observe, TurnInput, ProposalPayload, ActionOf, ActiveRequest;
    InvIsCoherent(run, w);
    AskedNow(run, w);
    var invocation := InvocationName(run, StepName(w.state.turnIndex + 1));
    ProposalIsAcceptable(cfg, run, w, invocation, call);
    ProposalReadsBack(invocation, w.state.turnIndex, call);
    LastOfAppended(cfg, run, w, ProposalPayload(invocation, w.state.turnIndex, call), []);
    assert Next(cfg, run, w) == Event0(ProposalPayload(invocation, w.state.turnIndex, call));
  }

  lemma AskedNow(run: Text, w: World)
    requires Inv(run, w) && w.state.status.ModelPending?
    ensures w.state.activeModelInvocationId == Some(InvocationName(run, StepName(w.state.turnIndex + 1)))
  {
    hide Inv, AskedAt;
    AskedIsActive(run, w);
  }

  lemma Requested(cfg: Config, run: Name, w: World, call: ModelAction) returns (request: ToolRequest)
    requires Bounded(run, w) && w.state.status.ActionPending? && call.ToolCallAction?
    requires w.log != [] && ActionOf(w.log[|w.log| - 1].payload) == Some(call)
    ensures Next(cfg, run, w).Some? && CallOf(request) == call && request.runId == run
    ensures var v := Step(cfg, run, w);
            && v.state.status.ToolPending? && ActiveRequest(run, v.log) == Some(request)
            && v.intents == w.intents && v.receipts == w.receipts
  {
    hide Inv, Acceptable, Appended, ActionOf, ActiveRequest, RequestPayload;
    InvIsCoherent(run, w);
    PendingIsNamed(run, w);
    request := RequestFor(run, w, w.log[|w.log| - 1].eventId, call);
    RequestOpens(cfg, run, w, request);
    LastOfAppended(cfg, run, w, RequestPayload(request), []);
    assert Next(cfg, run, w) == Event0(RequestPayload(request));
  }

  /** Authorization, start and intent of an allowed request. */
  lemma StartedWithIntent(cfg: Config, run: Name, w: World, request: ToolRequest)
    requires Bounded(run, w) && w.state.status.ToolPending? && ActiveRequest(run, w.log) == Some(request)
    requires cfg.authorize(request).Allow? && cfg.registry(request.toolName).Some?
    requires w.intents == map[] && w.receipts == map[]
    ensures var v := AfterSteps(cfg, run, w, 3); var intent := IntentOf(request);
            && v.state.status.ToolRunning? && ActiveRequest(run, v.log) == Some(request)
            && v.intents == map[intent.effectId := intent] && v.receipts == map[]
  {
    hide Inv, Acceptable, Appended, ActiveRequest, DecisionPayload, DecisionRest, IntentOf, Follows, Coherent, SameTurn;
    InvIsCoherent(run, w);
    IntentNames(request);
    DecisionStep(cfg, run, w, request);
    assert Next(cfg, run, w) == Some(AppendEvent(DecisionPayload(cfg, request), DecisionRest(cfg, request)));
    hide Next;
    LastOfAppended(cfg, run, w, DecisionPayload(cfg, request), DecisionRest(cfg, request));
    var authorized := Step(cfg, run, w);
    FollowsKeeps(cfg, run, w, authorized);
    StartsAndPlans(cfg, run, authorized, request);
    assert AfterSteps(cfg, run, w, 0) == w && AfterSteps(cfg, run, w, 1) == authorized;
    assert AfterSteps(cfg, run, w, 2) == Step(cfg, run, authorized);
  }

  lemma StartsAndPlans(cfg: Config, run: Name, w: World, request: ToolRequest)
    requires Inv(run, w) && w.state.status.ToolReady? && ActiveRequest(run, w.log) == Some(request)
    requires cfg.registry(request.toolName).Some? && w.intents == map[] && w.receipts == map[]
    ensures Next(cfg, run, w).Some? && Next(cfg, run, Step(cfg, run, w)).Some?
    ensures var v := Step(cfg, run, Step(cfg, run, w)); var intent := IntentOf(request);
            && v.state.status.ToolRunning? && ActiveRequest(run, v.log) == Some(request)
            && v.intents == map[intent.effectId := intent] && v.receipts == map[]
  {
    hide Inv, Acceptable, Appended, ActiveRequest, IntentOf, Follows, Coherent, SameTurn, UnsafeOpenEffect;
    InvIsCoherent(run, w);
    IntentNames(request);
    StartsRun(cfg, run, w, request);
    LastOfAppended(cfg, run, w, ToolStarted(Str(request.toolCallId)), []);
    var started := Step(cfg, run, w);
    assert started == Appended(cfg, run, w, ToolStarted(Str(request.toolCallId)), []);
    assert Next(cfg, run, started) == Some(PersistIntent(IntentOf(request)));
  }

  lemma {:induction false} StepsAdd(cfg: Config, run: Text, w: World, m: nat, n: nat)
    ensures AfterSteps(cfg, run, w, m + n) == AfterSteps(cfg, run, AfterSteps(cfg, run, w, m), n)
  {
    hide Next, Step;
    if n > 0 {
      StepsAdd(cfg, run, w, m, n - 1);
    }
  }

  /**
   * Each way of being stuck is met: a run whose first answer is an allowed call of a tool that must not be retried
   * waits for the adapter after one step, for the authorization of its request after three, and has an unsafe effect
   * open after six.  A process that stops there leaves a world from which no restart reaches the end of the run.
   */
  lemma StuckIsReached(cfg: Config, run: Name, maxSteps: Positive, call: ModelAction)
    requires WillCall(cfg, run, StartedRun(cfg, run, maxSteps), call) && cfg.registry(call.toolName) == Some(false)
    ensures var w := StartedRun(cfg, run, maxSteps);
            && Bounded(run, w) && w.state.status.Ready?
            && (forall n: nat :: Along(cfg, run, w, AfterSteps(cfg, run, w, n)) && Observed(AfterSteps(cfg, run, w, n)))
            && AfterSteps(cfg, run, w, 1).state.status.ModelPending?
            && AfterSteps(cfg, run, w, 3).state.status.ToolPending?
            && UnsafeOpenEffect(cfg, run, AfterSteps(cfg, run, w, 6))
            && (forall n :: n == 1 || n == 3 || n == 6 ==>
                  Stuck(cfg, run, AfterSteps(cfg, run, w, n)) && AfterSteps(cfg, run, w, n) != Finish(cfg, run, w))
  {
    hide StartedRun, Bounded, Next, Step, WillCall, ActiveRequest, ActionOf, Finish, EventsLeft;
    StartedIsReady(cfg, run, maxSteps);
    var w := StartedRun(cfg, run, maxSteps);
    forall n: nat
      ensures Along(cfg, run, w, AfterSteps(cfg, run, w, n)) && Observed(AfterSteps(cfg, run, w, n))
    {
      AfterStepsIsAlong(cfg, run, w, n);
    }
    var request := FirstCall(cfg, run, w, call);
    StepsAdd(cfg, run, w, 3, 3);
    StartedWithIntent(cfg, run, AfterSteps(cfg, run, w, 3), request);
    OpensUnsafely(cfg, run, AfterSteps(cfg, run, w, 6), request);
    forall n | n == 1 || n == 3 || n == 6 ensures AfterSteps(cfg, run, w, n) != Finish(cfg, run, w) {
      StuckIsNotFinished(cfg, run, AfterSteps(cfg, run, w, n));
    }
  }

  /** Intent, answer and request of the first turn. */
  lemma FirstCall(cfg: Config, run: Name, w: World, call: ModelAction) returns (request: ToolRequest)
    requires Bounded(run, w) && w.state.status.Ready? && HasBudget(w.state) && WillCall(cfg, run, w, call)
    requires w.intents == map[] && w.receipts == map[]
    ensures AfterSteps(cfg, run, w, 1).state.status.ModelPending?
    ensures var v := AfterSteps(cfg, run, w, 3);
            && Bounded(run, v) && v.state.status.ToolPending? && ActiveRequest(run, v.log) == Some(request)
            && v.intents == map[] && v.receipts == map[]
    ensures CallOf(request) == call && cfg.authorize(request).Allow?
  {
    hide Bounded, Next, Step, ActiveRequest, ActionOf, Finish, EventsLeft, TurnInput;
    var asked, proposed := AfterSteps(cfg, run, w, 1), AfterSteps(cfg, run, w, 2);
    assert AfterSteps(cfg, run, w, 0) == w;
    AfterStepsIsAlong(cfg, run, w, 1);
    AfterStepsIsAlong(cfg, run, w, 2);
    AfterStepsIsAlong(cfg, run, w, 3);
    Asks(cfg, run, w, call);
    assert asked == Step(cfg, run, w);
    Proposed(cfg, run, asked, call);
    assert proposed == Step(cfg, run, asked);
    request := Requested(cfg, run, proposed, call);
    assert AfterSteps(cfg, run, w, 3) == Step(cfg, run, proposed);
  }

  lemma OpensUnsafely(cfg: Config, run: Text, w: World, request: ToolRequest)
    requires w.state.status.ToolRunning? && ActiveRequest(run, w.log) == Some(request)
    requires var intent := IntentOf(request); w.intents == map[intent.effectId := intent] && w.receipts == map[]
    requires cfg.registry(request.toolName) == Some(false)
    ensures UnsafeOpenEffect(cfg, run, w)
  {
    hide ActiveRequest;
  }

  /** A run whose first call returns is VERIFYING after eight steps. */
  lemma VerifyingIsReached(cfg: Config, run: Name, maxSteps: Positive, call: ModelAction)
    requires WillCall(cfg, run, StartedRun(cfg, run, maxSteps), call) && cfg.registry(call.toolName).Some?
    requires forall intent: ToolIntent :: cfg.runner(intent).Returns?
    ensures var v := AfterSteps(cfg, run, StartedRun(cfg, run, maxSteps), 8); Bounded(run, v) && v.state.status.Verifying?
  {
    hide StartedRun, Bounded, Next, Step, WillCall, ActiveRequest, ActionOf, Finish, EventsLeft;
    StartedIsReady(cfg, run, maxSteps);
    var w := StartedRun(cfg, run, maxSteps);
    var request := FirstCall(cfg, run, w, call);
    StepsAdd(cfg, run, w, 3, 3);
    StartedWithIntent(cfg, run, AfterSteps(cfg, run, w, 3), request);
    AfterStepsIsAlong(cfg, run, w, 6);
    AfterStepsIsAlong(cfg, run, w, 8);
    ReturnsAndReports(cfg, run, AfterSteps(cfg, run, w, 6), request);
    assert AfterSteps(cfg, run, w, 7) == Step(cfg, run, AfterSteps(cfg, run, w, 6));
    assert AfterSteps(cfg, run, w, 8) == Step(cfg, run, AfterSteps(cfg, run, w, 7));
  }

  lemma ReturnsAndReports(cfg: Config, run: Name, w: World, request: ToolRequest)
    requires Bounded(run, w) && w.state.status.ToolRunning? && ActiveRequest(run, w.log) == Some(request)
    requires var intent := IntentOf(request); w.intents == map[intent.effectId := intent] && w.receipts == map[]
    requires cfg.registry(request.toolName).Some? && cfg.runner(IntentOf(request)).Returns?
    ensures Next(cfg, run, w).Some? && Next(cfg, run, Step(cfg, run, w)).Some?
    ensures Step(cfg, run, Step(cfg, run, w)).state.status.Verifying?
  {
    hide Inv, Acceptable, Appended, ActiveRequest, IntentOf, Follows, Coherent, SameTurn, ReceiptOf, ResultPayload,
         ResultRest;
    InvIsCoherent(run, w);
    IntentNames(request);
    var intent := IntentOf(request);
    var receipt := ReceiptOf(intent.effectId, cfg.runner(intent));
    assert Next(cfg, run, w) == Some(PersistReceipt(receipt));
    hide Next;
    StepIsSafe(cfg, run, w);
    var recorded := Step(cfg, run, w);
    InvIsCoherent(run, recorded);
    ReportIsNext(cfg, run, recorded, request);
    ReportIsAcceptable(cfg, run, recorded, request, receipt);
  }
}
