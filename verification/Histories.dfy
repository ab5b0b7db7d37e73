/**
 * Histories: any sequence of processes on one database, each under its own configuration, each stopping at any
 * point between two durable steps.  What holds at the end of every history holds at every stop.
 */
module Histories {
  import opened Values
  import opened Events
  import opened RunStates
  import opened Reducer
  import opened Replay
  import opened Lifecycle
  import opened EventStores
  import opened ToolEffects
  import opened Protocol
  import opened RunInvariant
  import opened Continuation
  import opened Guards
  import opened Recovery
  import opened Storages
  import opened OperationSteps
  import opened LoopSteps
  import opened AdapterCalls
  import opened Runtime
  import opened AgentLoop

  /** What a process is started for; nothing is asked of the arguments. */
  datatype Operation =
    | AppendLifecycle(event: Event)
    | SubmitRequest(request: ToolRequest)
    | BuildInput(run: Name)
    | Begin(context: ModelInput)
    | Propose(context: ModelInput, invocation: Text, action: ModelAction)
    | FailModel(run: Name, reason: Name)
    | Complete(context: ModelInput, final: Name, completion: CompletionResult)
    | Verify(run: Name, verification: VerificationResult)
    | VerifyStepOf(run: Name, verification: VerificationResult)
    | Loop(run: Name)
    | Resume(run: Name)
    | RecoverEffect(run: Name)
    | RestartRun(run: Name)
    | Resolve(reference: GateReference, approve: bool, actor: Name, reason: Name)
    | Answer(reference: GateReference, actor: Name, answer: Text)
    | Revise(reference: GateReference)
    | Snapshot(run: Name)
    | DamageRow(run: Name, damage: Damage)

  datatype Process = Process(config: Config, useSnapshots: bool, operation: Operation)

  function RunOf(operation: Operation): Text {
    match operation
    case AppendLifecycle(e) => e.runId
    case SubmitRequest(request) => request.runId
    case Begin(context) => context.runId
    case Propose(context, _, _) => context.runId
    case Complete(context, _, _) => context.runId
    case Resolve(reference, _, _, _) => reference.runId
    case Answer(reference, _, _) => reference.runId
    case Revise(reference) => reference.runId
    case _ => operation.run
  }

  /** The events that the application appends itself: creation, start, pause, resumption, cancellation. */
  predicate IsLifecycle(p: Payload) {
    p.RunCreated? || p.RunStarted? || p.RunPaused? || p.RunResumed? || p.RunCancelled?
  }

  /**
   * The operation fits the state that it finds its run in.  Only these operations can leave a log that does not
   * replay, because they persist their event before anything compares it with the state.
   */
  ghost predicate Fits(process: Process, st: Storage) {
    var s := WorldIn(st, RunOf(process.operation)).state;
    match process.operation
    case AppendLifecycle(e) =>
      e.eventId in st.identities || e.sequence != |LogIn(st, e.runId)| || (!IsTerminal(s.status) && Transition(s, e).Some?)
    case SubmitRequest(request) => MayRequest(s, request)
    case Begin(_) => HasBudget(s)
    case FailModel(_, _) => s.status.Ready? || s.status.ModelPending?
    case Complete(_, _, _) => HasBudget(s)
    case Verify(_, verification) => s.status.Verifying? && Speaks(verification)
    case VerifyStepOf(_, verification) => Speaks(verification)
    case Loop(_) => AlwaysSpeaks(process.config)
    case Resume(_) => AlwaysSpeaks(process.config)
    case RestartRun(_) => AlwaysSpeaks(process.config)
    case _ => true
  }

  ghost function DatabaseOf(events: EventStore, store: ToolEffectStore, ledger: seq<Invocation>): Storage
    reads events, store
  {
    Storage(events.tables, events.identities, Effects(store.intents, store.receipts, ledger))
  }

  /** What an operation may change, and what it leaves of its run: a log that replays, if it fitted. */
  ghost predicate Served(process: Process, a: Storage, b: Storage) {
    var run := RunOf(process.operation);
    && Touches(run, a, b)
    && Kept(run, b)
    && (Accepted(run, LogIn(a, run)) && Fits(process, a) ==> Accepted(run, LogIn(b, run)))
  }

  // ----- Lifecycle events of the application -----

  /** After a lifecycle event the run is in no turn, call or gate, and no effect of it is in progress. */
  lemma LifecycleMoves(s: RunState, e: Event)
    requires IsLifecycle(e.payload) && Transition(s, e).Some?
    ensures var t := Transition(s, e).value.status;
            && !InToolPhase(t) && !InModelPhase(t) && !t.Verifying?
            && (t.Cancelled? || (!s.status.ToolRunning? && !s.status.Cancelled?))
  {
    hide RunTransition, ModelTransition, ToolTransition, GateTransition;
    TransitionMoves(s, e);
  }

  /**
   * A lifecycle event of the application is taken exactly in the one status that it leaves, creation only as the first
   * event of a log and with a positive budget or none, and cancellation anywhere before the end.  It changes the status,
   * and nothing else but the budget that creation fixes and whatever cancellation closes.
   */
  lemma LifecycleDecides(run: Text, log: seq<Event>, e: Event)
    requires Accepted(run, log) && e.runId == run && e.sequence == |log| && IsLifecycle(e.payload)
    requires forall i :: 0 <= i < |log| ==> log[i].eventId != e.eventId
    ensures var s := StateOf(run, log);
            Accepted(run, log + [e]) <==>
            match e.payload
            case RunCreated(limit) => log == [] && (limit == Missing || limit == Null || (limit.Int? && limit.number >= 1))
            case RunStarted => s.status.Created?
            case RunPaused => s.status.Ready?
            case RunResumed => s.status.Paused?
            case _ => !IsTerminal(s.status)
    ensures var s, t := StateOf(run, log), StateOf(run, log + [e]);
            Accepted(run, log + [e]) ==>
              match e.payload
              case RunCreated(limit) =>
                t == s.(status := Created, maxSteps := if limit.Int? then Some(limit.number) else None,
                        nextSequence := 1, applied := t.applied)
              case RunStarted => t == s.(status := Ready, nextSequence := |log| + 1, applied := t.applied)
              case RunPaused => t == s.(status := Paused, nextSequence := |log| + 1, applied := t.applied)
              case RunResumed => t == s.(status := Ready, nextSequence := |log| + 1, applied := t.applied)
              case _ => t.status.Cancelled? && t.turnIndex == s.turnIndex && t.maxSteps == s.maxSteps
  {
    hide Transition, Accepted, StateOf;
    NewEventDecides(run, log, e);
    NewIsEmpty(run, log);
    AppliedBooks(run, log);
    LifecycleTaken(StateOf(run, log), e);
    if Accepted(run, log + [e]) {
      AcceptedAdvance(run, log, e);
    }
  }

  lemma NewIsEmpty(run: Text, log: seq<Event>)
    requires Accepted(run, log)
    ensures StateOf(run, log).status.New? <==> log == []
  {
    if log == [] {
      EmptyIsNew(run, log);
    } else {
      hide Accepted, StateOf;
      LastMove(run, log);
    }
  }

  lemma LifecycleTaken(s: RunState, e: Event)
    requires IsLifecycle(e.payload)
    ensures Transition(s, e) ==
            match e.payload
            case RunCreated(limit) =>
              if s.status.New? && (IsAbsent(limit) || IsPositive(limit)) then
                Some(s.(status := Created, maxSteps := if limit.Int? then Some(limit.number) else None))
              else None
            case RunStarted => if s.status.Created? then Some(s.(status := Ready)) else None
            case RunPaused => if s.status.Ready? then Some(s.(status := Paused)) else None
            case RunResumed => if s.status.Paused? then Some(s.(status := Ready)) else None
            case _ =>
              Some(s.(status := Cancelled, activeStepId := None, activeModelInvocationId := None,
                      activeModelActionEventId := None, activeToolCallId := None, activeGateProposalDigest := None,
                      activeGateRevision := None, activeGateMode := None, activeGateAttempts := 0,
                      activeGateMaxAttempts := None, failureReason := None))
  {
  }

  /** A pause that is ended leaves the run as it was, but for the two events in its books. */
  lemma PauseIsInvisible(run: Text, log: seq<Event>, pause: Event, resumption: Event)
    requires Accepted(run, log) && Accepted(run, log + [pause]) && Accepted(run, log + [pause] + [resumption])
    requires pause.payload.RunPaused? && resumption.payload.RunResumed?
    ensures var s, t := StateOf(run, log), StateOf(run, log + [pause] + [resumption]);
            s.status.Ready? && t == s.(nextSequence := s.nextSequence + 2, applied := t.applied)
  {
    hide Accepted, StateOf, Transition;
    AcceptedAdvance(run, log, pause);
    AcceptedAdvance(run, log + [pause], resumption);
    LifecycleTaken(StateOf(run, log), pause);
    LifecycleTaken(StateOf(run, log + [pause]), resumption);
  }

  lemma LifecycleKeepsInv(run: Name, w: World, e: Event)
    requires Inv(run, w) && IsLifecycle(e.payload) && IsHonest(e)
    requires e.runId == run && e.sequence == |w.log|
    requires forall i :: 0 <= i < |w.log| ==> w.log[i].eventId != e.eventId
    requires !IsTerminal(w.state.status) && Transition(w.state, e).Some?
    ensures Inv(run, WorldAfter(run, w, e))
  {
    hide Transition, Accepted, StateOf, TurnFacts, Evidence, OpenIntents, IsHonest, IsLifecycle;
    var v := WorldAfter(run, w, e);
    InvIsCoherent(run, w);
    NewEventDecides(run, w.log, e);
    LifecycleMoves(w.state, e);
    assert v.state == Advance(Transition(w.state, e).value, e) by { AcceptedAdvance(run, w.log, e); }
    assert Coherent(run, v);
    QuietTurn(run, v);
    QuietEffects(run, w, v);
  }

  ghost function WorldAfter(run: Text, w: World, e: Event): World {
    w.(log := w.log + [e], state := StateOf(run, w.log + [e]))
  }

  lemma AcceptedAdvance(run: Text, log: seq<Event>, e: Event)
    requires Accepted(run, log) && Accepted(run, log + [e])
    ensures Transition(StateOf(run, log), e).Some?
    ensures StateOf(run, log + [e]) == Advance(Transition(StateOf(run, log), e).value, e)
  {
    hide Transition, Accepted, StateOf, Advance;
    LastStep(run, log + [e]);
    assert (log + [e])[..|log|] == log;
  }

  lemma QuietTurn(run: Text, v: World)
    requires !InToolPhase(v.state.status) && !InModelPhase(v.state.status) && !v.state.status.Verifying?
    ensures TurnFacts(run, v)
  {
    hide AskedFacts, ProposedFacts, RequestedFacts;
  }

  lemma QuietEffects(run: Text, w: World, v: World)
    requires EffectFacts(run, w) && v.intents == w.intents && v.receipts == w.receipts
    requires !v.state.status.Verifying?
    requires v.state.status.Cancelled? || (!w.state.status.ToolRunning? && !w.state.status.Cancelled?)
    ensures EffectFacts(run, v)
  {
    hide Evidence, ActiveRequest, IntentOf;
  }

  /** A lifecycle event of the application joins: the run is kept, and replays if the event fitted. */
  lemma LifecycleServes(registry: Text -> Option<bool>, process: Process, a: Storage, b: Storage, e: Event)
    requires process.operation == AppendLifecycle(e) && e.runId != Raw("") && IsLifecycle(e.payload) && IsHonest(e)
    requires LedgerSound(registry, a) && GoodTables(a.tables, a.identities) && HonestIndex(a.identities)
    requires Kept(e.runId, a) && b.fx == a.fx
    requires e.eventId !in a.identities && e.sequence == |LogIn(a, e.runId)|
    requires LogIn(b, e.runId) == LogIn(a, e.runId) + [e]
    requires forall other :: other != e.runId ==> LogIn(b, other) == LogIn(a, other)
    ensures Served(process, a, b) && LedgerSound(registry, b)
  {
    hide Inv, AtMostOnce, HonestIndex, Justified, LogIn, Transition, IsLifecycle, IsHonest, StateOf, GoodTables,
         Accepted;
    var run: Name := e.runId;
    var w := WorldIn(a, run);
    assert Touches(run, a, b);
    LedgerStays(run, a, b);
    NewIdentity(a, e);
    if Accepted(run, LogIn(a, run)) {
      NewEventDecides(run, w.log, e);
      if Accepted(run, LogIn(b, run)) {
        LifecycleKeepsInv(run, w, e);
        assert WorldIn(b, run) == WorldAfter(run, w, e);
      }
    } else {
      StaysRefused(run, LogIn(a, run), e);
    }
  }

  lemma StaysRefused(run: Text, log: seq<Event>, e: Event)
    requires !Accepted(run, log)
    ensures !Accepted(run, log + [e])
  {
    hide Accepted;
    assert (log + [e])[..|log|] == log;
    if Accepted(run, log + [e]) {
      AcceptedPrefix(run, log + [e], |log|);
    }
  }

  /** A new identity is not in the run's log. */
  lemma NewIdentity(st: Storage, e: Event)
    requires GoodTables(st.tables, st.identities)
    ensures var log := LogIn(st, e.runId);
            e.eventId !in st.identities ==> e !in log && forall i :: 0 <= i < |log| ==> log[i].eventId != e.eventId
  {
    hide StoredRows, EventsOf;
    assert Listed(LogIn(st, e.runId), st.identities);
  }

  lemma SameLogsServe(process: Process, a: Storage, b: Storage)
    requires forall other :: LogIn(b, other) == LogIn(a, other)
    requires b.fx == a.fx && Kept(RunOf(process.operation), a)
    ensures Served(process, a, b)
  {
    hide LogIn, Inv, Accepted, StateOf, Fits;
    assert WorldIn(b, RunOf(process.operation)) == WorldIn(a, RunOf(process.operation));
  }

  /** One event that the runtime persisted. */
  lemma PersistedServes(process: Process, run: Name, a: Storage, b: Storage, p: Payload, rest: seq<Val>, legal: bool)
    requires RunOf(process.operation) == run && Kept(run, a) && Accepted(run, LogIn(a, run)) && Touches(run, a, b)
    requires Persisted(process.config, run, a, b, p, rest, legal) && Disciplined(run, WorldIn(a, run), p)
    requires Fits(process, a) ==> legal
    ensures Served(process, a, b)
  {
    hide Touches, Inv, Accepted, Disciplined, Fits, WorldIn, Coherent, Appended, Joined, Kept;
    PersistedIsKept(process.config, run, a, b, p, rest, legal);
    PersistedFields(process.config, run, a, b, p, rest, legal);
  }

  /** A run that loaded afterwards, and kept its promises if it did before. */
  lemma KeptServes(process: Process, run: Name, a: Storage, b: Storage)
    requires RunOf(process.operation) == run && Kept(run, a) && Accepted(run, LogIn(a, run)) && Touches(run, a, b)
    requires Accepted(run, LogIn(b, run)) && (Inv(run, WorldIn(a, run)) ==> Inv(run, WorldIn(b, run)))
    ensures Served(process, a, b)
  {
    hide Touches, Inv, Accepted, Fits, WorldIn;
  }

  lemma ProposalIsDisciplined(run: Text, w: World, invocation: Text, action: ModelAction)
    ensures Disciplined(run, w, ProposalPayload(invocation, w.state.turnIndex, action))
  {
    hide ActionOf;
    ProposalReadsBack(invocation, w.state.turnIndex, action);
  }

  /** A loop whose verdicts always speak leaves a log that replays. */
  lemma SpeakingLoop(cfg: Config, run: Name, w: World, x: World, r: Outcome<LoopResult>)
    requires Inv(run, w) && LoopEnded(cfg, run, w, x, r) && AlwaysSpeaks(cfg)
    ensures !Silenced(x.log)
  {
    hide Inv, Follows, Next, AlwaysSpeaks, Finish, Appended, Silenced;
    InvIsCoherent(run, w);
    FollowersSpeak(run, w);
    LastOfAppended(cfg, run, w, ModelActionFailed(Str(Literal(ADAPTER_OUTCOME_UNKNOWN))), []);
    NotSilenced(x.log, w.log);
  }

  lemma SpeakingRestart(cfg: Config, run: Name, w: World, x: World, r: Outcome<()>)
    requires Restarted(cfg, run, w, x, r) && AlwaysSpeaks(cfg)
    ensures !Silenced(x.log)
  {
    hide Inv, Follows, Next, AlwaysSpeaks, Finish, Silenced, Bounded, Stuck;
  }

  // ----- One process -----

  /** The application appends one of its own events, whatever the run's state. */
  method PerformLifecycle(runtime: AuthorizedToolRuntime, process: Process)
    requires runtime.Valid() && process.operation.AppendLifecycle? && RunOf(process.operation) != Raw("")
    requires Kept(RunOf(process.operation), runtime.Facts())
    modifies runtime.events`tables, runtime.events`identities
    ensures runtime.Valid() && Served(process, old(runtime.Facts()), runtime.Facts())
  {
    hide Touches, WorldIn, GoodTables, Trusted, HonestIndex, Inv, EventsOf, Accepted, Transition, IsHonest, IsLifecycle,
         Served, LedgerSound, Kept;
    ghost var a := runtime.Facts();
    var e := process.operation.event;
    if !IsHonest(e) || !IsLifecycle(e.payload) {
      SameLogsServe(process, a, a);
      return;
    }
    ghost var log := runtime.events.Log(e.runId);
    NewIdentity(a, e);
    HonestGrows(runtime.events.identities, e);
    var appended := runtime.events.Append(e);
    ghost var b := runtime.Facts();
    forall other | other != e.runId ensures LogIn(b, other) == LogIn(a, other) {
      assert runtime.events.Log(other) == old(runtime.events.Log(other));
    }
    assert LogIn(b, e.runId) == runtime.events.Log(e.runId);
    if appended.Err? || e in log {
      SameLogsServe(process, a, b);
      LedgerSame(runtime.config.registry, e.runId, a, b);
    } else {
      LifecycleServes(runtime.config.registry, process, a, b, e);
    }
  }

  lemma LedgerSame(registry: Text -> Option<bool>, run: Text, a: Storage, b: Storage)
    requires LedgerSound(registry, a) && b.fx == a.fx && forall other :: LogIn(b, other) == LogIn(a, other)
    ensures LedgerSound(registry, b)
  {
    hide LogIn, AtMostOnce, Justified;
    assert Touches(run, a, b);
    LedgerStays(run, a, b);
  }

  /** The operations on model actions, completions and verdicts, called directly. */
  method PerformModel(runtime: AuthorizedToolRuntime, process: Process)
    requires runtime.Valid() && runtime.config == process.config && RunOf(process.operation) != Raw("")
    requires process.operation.BuildInput? || process.operation.Begin? || process.operation.Propose?
             || process.operation.FailModel? || process.operation.Complete? || process.operation.Verify? || process.operation.VerifyStepOf?
    requires Kept(RunOf(process.operation), runtime.Facts())
    modifies runtime.events`tables, runtime.events`identities
    ensures runtime.Valid() && Served(process, old(runtime.Facts()), runtime.Facts())
  {
    hide Touches, WorldIn, GoodTables, Trusted, HonestIndex, Inv, EventsOf, Accepted, Served, LedgerSound, Kept,
         Persisted, Disciplined, MayComplete, MayPropose, ProposalPayload, CompletionPayload, StepVerificationPayload,
         RunVerificationPayload, Appended, Coherent, PendingOf, Next, RaisesOnLoad, Observe;
    ghost var a, w := runtime.Facts(), runtime.WorldOf(RunOf(process.operation));
    SameLogsServe(process, a, a);
    match process.operation {
      case BuildInput(run) =>
        var built := runtime.BuildModelInput(run);
        if runtime.Facts() != a {
          KeptServes(process, run, a, runtime.Facts());
        }
      case Begin(context) =>
        PerformBegin(runtime, process, context);
      case Propose(context, invocation, action) =>
        ProposalIsDisciplined(context.runId, w, invocation, action);
        var proposed := runtime.PersistModelAction(context, invocation, action);
        if old(runtime.Loads(context.runId)) && MayPropose(w.state, context, invocation) {
          PersistedServes(process, context.runId, a, runtime.Facts(), ProposalPayload(invocation, w.state.turnIndex, action), [], true);
        }
      case FailModel(run, reason) =>
        PlainIsDisciplined(run, w, ModelActionFailed(Str(reason)));
        var failed := runtime.RecordModelActionFailure(run, reason);
        if old(runtime.Loads(run)) {
          PersistedServes(process, run, a, runtime.Facts(), ModelActionFailed(Str(reason)), [],
                          w.state.status.Ready? || w.state.status.ModelPending?);
        }
      case Complete(context, answer, completion) =>
        PerformCompletion(runtime, process);
      case Verify(run, verification) =>
        VerdictsAreDisciplined(run, w, Raw(""), verification);
        var verified := runtime.RecordVerification(run, verification);
        if old(runtime.Loads(run)) {
          PersistedServes(process, run, a, runtime.Facts(), RunVerificationPayload(verification), VerificationRest(verification),
                          w.state.status.Verifying? && Speaks(verification));
        }
      case VerifyStepOf(run, verification) =>
        var recorded := runtime.RecordStepVerification(run, verification);
        if old(runtime.Loads(run)) && w.state.status.Verifying? && w.state.activeStepId.Some? {
          VerdictsAreDisciplined(run, w, w.state.activeStepId.value, verification);
          PersistedServes(process, run, a, runtime.Facts(), StepVerificationPayload(w.state.activeStepId.value, verification),
                          VerificationRest(verification), Speaks(verification));
        }
    }
  }

  lemma VerdictsAreDisciplined(run: Text, w: World, step: Text, v: VerificationResult)
    ensures Disciplined(run, w, RunVerificationPayload(v)) && Disciplined(run, w, StepVerificationPayload(step, v))
  {
    hide ResultOfReceipt;
  }

  /** The intent to ask, on any input. */
  method PerformBegin(runtime: AuthorizedToolRuntime, process: Process, context: ModelInput)
    requires runtime.Valid() && runtime.config == process.config && process.operation == Begin(context)
    requires context.runId != Raw("") && Kept(context.runId, runtime.Facts())
    modifies runtime.events`tables, runtime.events`identities
    ensures runtime.Valid() && Served(process, old(runtime.Facts()), runtime.Facts())
  {
    hide Touches, WorldIn, GoodTables, Trusted, HonestIndex, Inv, EventsOf, Accepted, Served, LedgerSound, Kept,
         Persisted, Disciplined, Appended, Coherent, RaisesOnLoad, AskPayload, MayBegin;
    var run: Name := context.runId;
    ghost var a, w := runtime.Facts(), runtime.WorldOf(run);
    SameLogsServe(process, a, a);
    AskIsDisciplined(run, w, context.observationJson);
    var begun := runtime.BeginModelAction(context);
    if old(runtime.Loads(run)) && MayBegin(w.state, context) {
      PersistedServes(process, run, a, runtime.Facts(), AskPayload(run, w.state.turnIndex, context.observationJson), [],
                      HasBudget(w.state));
    }
  }

  method PerformCompletion(runtime: AuthorizedToolRuntime, process: Process)
    requires runtime.Valid() && runtime.config == process.config && process.operation.Complete?
    requires RunOf(process.operation) != Raw("") && Kept(RunOf(process.operation), runtime.Facts())
    modifies runtime.events`tables, runtime.events`identities
    ensures runtime.Valid() && Served(process, old(runtime.Facts()), runtime.Facts())
  {
    hide Touches, WorldIn, GoodTables, Trusted, HonestIndex, Inv, EventsOf, Accepted, Served, LedgerSound, Kept,
         Persisted, Disciplined, MayComplete, Appended, Coherent, RaisesOnLoad;
    var Complete(context, answer, completion) := process.operation;
    ghost var a, w := runtime.Facts(), runtime.WorldOf(context.runId);
    SameLogsServe(process, a, a);
    ghost var payload := CompletionPayload(w.state.activeModelActionEventId, context.stepId, answer, completion);
    PlainIsDisciplined(context.runId, w, payload);
    var recorded := runtime.RecordCompletion(context, answer, completion);
    if old(runtime.Loads(context.runId)) && MayComplete(context.runId, w, context, answer, completion) {
      PersistedServes(process, context.runId, a, runtime.Facts(), payload, [Str(answer), completion.checks], HasBudget(w.state));
    }
  }

  /** Tool requests, human decisions and effect recovery. */
  method PerformTool(runtime: AuthorizedToolRuntime, process: Process)
    requires runtime.Valid() && runtime.config == process.config && RunOf(process.operation) != Raw("")
    requires process.operation.SubmitRequest? || process.operation.RecoverEffect? || process.operation.Resolve?
             || process.operation.Answer? || process.operation.Revise?
    requires Kept(RunOf(process.operation), runtime.Facts())
    modifies runtime.events`tables, runtime.events`identities, runtime.executor.store, runtime.executor.runner
    ensures runtime.Valid() && Served(process, old(runtime.Facts()), runtime.Facts())
  {
    hide Touches, WorldIn, GoodTables, Trusted, HonestIndex, Inv, EventsOf, Accepted, Served, LedgerSound, Kept,
         Persisted, Disciplined, Appended, Coherent, Next, RaisesOnLoad, MayRequest, MayResolve, MayAnswer, MayRevise,
         RequestPayload, Halted, Reported, ActiveRequest, UnsafeOpenEffect, RevisionPayload, BuildProposal,
         ReferenceIsActive, WentOn, Answered, Submitted, Follows;
    ghost var a, w := runtime.Facts(), runtime.WorldOf(RunOf(process.operation));
    SameLogsServe(process, a, a);
    match process.operation {
      case SubmitRequest(request) =>
        RequestDecides(process.config, request.runId, w, request);
        var submitted := runtime.Submit(request);
        if old(runtime.Loads(request.runId)) {
          if MayRequest(w.state, request) {
            SubmittedKeeps(process.config, request.runId, w, runtime.WorldOf(request.runId), request, submitted);
            KeptServes(process, request.runId, a, runtime.Facts());
          } else {
            PersistedServes(process, request.runId, a, runtime.Facts(), RequestPayload(request), [], false);
          }
        }
      case RecoverEffect(run) =>
        var recovered := runtime.Recover(run);
        if old(runtime.Loads(run)) && runtime.Facts() != a {
          FollowsKeeps(process.config, run, w, runtime.WorldOf(run));
          KeptServes(process, run, a, runtime.Facts());
        }
      case Resolve(reference, approve, actor, reason) =>
        var resolved := runtime.ResolveGate(reference, approve, actor, reason);
        if old(runtime.Loads(reference.runId)) && MayResolve(process.config, reference.runId, w, reference, approve) {
          if approve {
            WentOnKeeps(process.config, reference.runId, w,
                        Appended(process.config, reference.runId, w, ApprovalPayload(reference), [Str(actor), Str(reason)]),
                        runtime.WorldOf(reference.runId), resolved, None, None);
          }
          KeptServes(process, reference.runId, a, runtime.Facts());
        }
      case Answer(reference, actor, answer) =>
        var answered := runtime.SubmitGateAnswer(reference, actor, answer);
        if old(runtime.Loads(reference.runId)) && MayAnswer(process.config, reference.runId, w, reference) {
          AnsweredKeeps(process.config, reference.runId, w, reference, actor, answer, runtime.WorldOf(reference.runId), answered);
          KeptServes(process, reference.runId, a, runtime.Facts());
        }
      case Revise(reference) =>
        PerformRevision(runtime, process, reference);
    }
  }

  method PerformRevision(runtime: AuthorizedToolRuntime, process: Process, reference: GateReference)
    requires runtime.Valid() && runtime.config == process.config && process.operation == Revise(reference)
    requires reference.runId != Raw("") && Kept(reference.runId, runtime.Facts())
    modifies runtime.events`tables, runtime.events`identities
    ensures runtime.Valid() && Served(process, old(runtime.Facts()), runtime.Facts())
  {
    hide Touches, WorldIn, GoodTables, Trusted, HonestIndex, Inv, EventsOf, Accepted, Served, LedgerSound, Persisted,
         Disciplined, Appended, Coherent, RaisesOnLoad, ActiveRequest, RevisionPayload, BuildProposal,
         ReferenceIsActive;
    var run: Name := reference.runId;
    ghost var a, w := runtime.Facts(), runtime.WorldOf(run);
    SameLogsServe(process, a, a);
    var revised := runtime.ReviseGate(reference);
    if old(runtime.Loads(run)) && MayRevise(process.config, run, w, reference) {
      ghost var request := ActiveRequest(run, w.log).value;
      ghost var d := process.config.authorize(request);
      RevisionIsDisciplined(process.config, run, w, reference, request, d.mode, d.paths, d.reasons);
      PersistedServes(process, run, a, runtime.Facts(),
                      RevisionPayload(process.config, reference, request, d.mode, d.paths, d.reasons), [], true);
    }
  }

  /** The loop, its resumption and the restart of one agent. */
  method PerformLoop(runtime: AuthorizedToolRuntime, adapter: ModelAdapter, process: Process, run: Name)
    requires runtime.Valid() && runtime.config == process.config && RunOf(process.operation) == run
    requires process.operation.Loop? || process.operation.Resume? || process.operation.RestartRun?
    requires Kept(run, runtime.Facts())
    requires adapter.reply == runtime.config.adapter && CallsInOrder(adapter.calls, runtime.Facts())
    modifies runtime.events`tables, runtime.events`identities, runtime.executor.store, runtime.executor.runner, adapter
    ensures runtime.Valid() && Served(process, old(runtime.Facts()), runtime.Facts())
    ensures CallsInOrder(adapter.calls, runtime.Facts())
  {
    hide Touches, WorldIn, GoodTables, Trusted, HonestIndex, Inv, EventsOf, Accepted, Served, LedgerSound, Kept,
         CallsInOrder, Appended, Coherent, RaisesOnLoad, Follows, Next, LoopEnded, Restarted, TurnsLeft, AccountsForAll,
         Silenced, AlwaysSpeaks;
    ghost var a, w := runtime.Facts(), runtime.WorldOf(run);
    var agent := new ModelDrivenAgent(runtime, adapter, run);
    agent.KeptLoads();
    SameLogsServe(process, a, a);
    match process.operation {
      case Loop(_) =>
        var looped := agent.RunLoop();
        if old(runtime.Loads(run)) && runtime.Facts() != a && AlwaysSpeaks(process.config) {
          SpeakingLoop(process.config, run, w, runtime.WorldOf(run), looped);
        }
      case Resume(_) =>
        var resumed := agent.ResumeLoop();
        if old(runtime.Loads(run)) && runtime.Facts() != a && AlwaysSpeaks(process.config) {
          SpeakingLoop(process.config, run, w, runtime.WorldOf(run), resumed);
        }
      case RestartRun(_) =>
        var restarted := agent.Restart();
        if old(runtime.Loads(run)) && AlwaysSpeaks(process.config) {
          SpeakingRestart(process.config, run, w, runtime.WorldOf(run), restarted);
        }
    }
    agent.KeptLoads();
    LoopServes(process, run, a, runtime.Facts());
  }

  lemma LoopServes(process: Process, run: Name, a: Storage, b: Storage)
    requires process.operation.Loop? || process.operation.Resume? || process.operation.RestartRun?
    requires RunOf(process.operation) == run && Touches(run, a, b) && Kept(run, b)
    requires Accepted(run, LogIn(a, run)) && AlwaysSpeaks(process.config) ==> Accepted(run, LogIn(b, run))
    ensures Served(process, a, b)
  {
    hide Touches, Kept, Accepted, AlwaysSpeaks, LogIn, WorldIn;
  }

  // ----- Histories -----

  /** What holds of the database at every stop: a sound ledger, an honest index, and promises kept by every run. */
  ghost predicate Sound(registry: Text -> Option<bool>, st: Storage) {
    LedgerSound(registry, st) && HonestIndex(st.identities) && forall run: Name :: Kept(run, st)
  }

  /** What one process does to the database: it touches one run, and keeps its log replayable if it fitted. */
  ghost predicate Stepped(process: Process, a: Storage, b: Storage) {
    var run := RunOf(process.operation);
    && Touches(run, a, b)
    && (run != Raw("") && Accepted(run, LogIn(a, run)) && Fits(process, a) ==> Accepted(run, LogIn(b, run)))
  }

  lemma ServedIsSound(registry: Text -> Option<bool>, process: Process, a: Storage, b: Storage)
    requires Sound(registry, a) && Served(process, a, b) && RunOf(process.operation) != Raw("")
    requires LedgerSound(registry, b) && HonestIndex(b.identities) && GoodEffects(b.fx.intents, b.fx.receipts)
    ensures Sound(registry, b) && Stepped(process, a, b)
  {
    hide Touches, Inv, Accepted, Fits, LedgerSound, HonestIndex, GoodEffects, Kept;
    forall run: Name ensures Kept(run, b) {
      assert Kept(run, a);
      if run != RunOf(process.operation) {
        OtherRunKeeps(RunOf(process.operation), run, a, b);
      }
    }
  }

  lemma SoundParts(registry: Text -> Option<bool>, process: Process, st: Storage)
    requires Sound(registry, st)
    ensures LedgerSound(registry, st) && HonestIndex(st.identities)
    ensures RunOf(process.operation) != Raw("") ==> Kept(RunOf(process.operation), st)
  {
    hide LedgerSound, HonestIndex, Kept;
  }

  lemma NothingStepped(process: Process, st: Storage)
    ensures Stepped(process, st, st)
  {
    hide Accepted, LogIn, Fits;
  }

  lemma SoundEmpty(registry: Text -> Option<bool>, st: Storage)
    requires st == Storage(map[], map[], Effects(map[], map[], []))
    ensures Sound(registry, st) && CallsInOrder([], st)
    ensures forall run: Name :: Accepted(run, LogIn(st, run))
  {
    hide Inv;
    forall run: Name ensures Inv(run, WorldIn(st, run)) && Accepted(run, LogIn(st, run)) {
      assert LogIn(st, run) == [];
      EmptyInv(run, map[], map[]);
    }
  }

  /** The run that an operation may touch is the only one whose adapter calls it may add to. */
  lemma ServedKeepsCalls(process: Process, calls: seq<AdapterCall>, a: Storage, b: Storage)
    requires Served(process, a, b) && CallsInOrder(calls, a)
    ensures CallsInOrder(calls, b)
  {
    hide Touches, CallsInOrder, Kept, Accepted, Fits;
    CallsStay(RunOf(process.operation), calls, a, b);
  }

  /** Start one process on the database and let it run until it returns, raises or stops. */
  method Perform(process: Process, events: EventStore, store: ToolEffectStore,
                 ghost ledger: seq<Invocation>, ghost calls: seq<AdapterCall>)
    returns (ghost ledger': seq<Invocation>, ghost calls': seq<AdapterCall>)
    requires events.Valid() && store.Valid()
    requires Sound(process.config.registry, DatabaseOf(events, store, ledger))
    requires CallsInOrder(calls, DatabaseOf(events, store, ledger))
    modifies events, store
    ensures events.Valid() && store.Valid()
    ensures Sound(process.config.registry, DatabaseOf(events, store, ledger'))
    ensures CallsInOrder(calls', DatabaseOf(events, store, ledger'))
    ensures Stepped(process, old(DatabaseOf(events, store, ledger)), DatabaseOf(events, store, ledger'))
  {
    hide Sound, CallsInOrder, Touches, WorldIn, GoodTables, Trusted, HonestIndex, Inv, EventsOf, LogIn, Accepted,
         Served, Stepped, Kept, LedgerSound, Fits, GoodEffects;
    ghost var a := DatabaseOf(events, store, ledger);
    NothingStepped(process, a);
    if RunOf(process.operation) == Raw("") {
      return ledger, calls;
    }
    SoundParts(process.config.registry, process, a);
    var runner := new ToolRunner(process.config.runner, ledger);
    var executor := new DurableToolExecutor(store, runner, process.config.registry);
    var runtime := new AuthorizedToolRuntime(events, executor, process.config, process.useSnapshots);
    var adapter := new ModelAdapter(process.config.adapter, calls);
    assert runtime.Facts() == a && runtime.Valid();
    PerformOn(runtime, adapter, process);
    ledger', calls' := runner.ledger, adapter.calls;
    ServedIsSound(process.config.registry, process, a, DatabaseOf(events, store, ledger'));
  }

  /** The operation itself, on a runtime over the database. */
  method PerformOn(runtime: AuthorizedToolRuntime, adapter: ModelAdapter, process: Process)
    requires runtime.Valid() && runtime.config == process.config && RunOf(process.operation) != Raw("")
    requires Kept(RunOf(process.operation), runtime.Facts())
    requires adapter.reply == runtime.config.adapter && CallsInOrder(adapter.calls, runtime.Facts())
    modifies runtime.events, runtime.executor.store, runtime.executor.runner, adapter
    ensures runtime.Valid() && Served(process, old(runtime.Facts()), runtime.Facts())
    ensures CallsInOrder(adapter.calls, runtime.Facts())
  {
    hide CallsInOrder, Touches, WorldIn, GoodTables, Trusted, HonestIndex, Inv, EventsOf, Accepted, Served, Kept,
         LedgerSound, Fits;
    ghost var a := runtime.Facts();
    SameLogsServe(process, a, a);
    match process.operation {
      case Loop(run) => PerformLoop(runtime, adapter, process, run);
      case Resume(run) => PerformLoop(runtime, adapter, process, run);
      case RestartRun(run) => PerformLoop(runtime, adapter, process, run);
      case AppendLifecycle(_) => PerformLifecycle(runtime, process);
      case SubmitRequest(_) => PerformTool(runtime, process);
      case RecoverEffect(_) => PerformTool(runtime, process);
      case Resolve(_, _, _, _) => PerformTool(runtime, process);
      case Answer(_, _, _) => PerformTool(runtime, process);
      case Revise(_) => PerformTool(runtime, process);
      case Snapshot(run) =>
        var saved := runtime.CreateSnapshot(run);
      case DamageRow(run, damage) =>
        runtime.events.DamageSnapshot(run, damage);
      case _ => PerformModel(runtime, process);
    }
    if !process.operation.Loop? && !process.operation.Resume? && !process.operation.RestartRun? {
      ServedKeepsCalls(process, adapter.calls, a, runtime.Facts());
    }
  }

  /** Each operation on the run fitted the state that it found. */
  ghost predicate AlwaysFitted(run: Text, processes: seq<Process>, stops: seq<Storage>)
    requires |processes| <= |stops|
  {
    forall n :: 0 <= n < |processes| && RunOf(processes[n].operation) == run ==> Fits(processes[n], stops[n])
  }

  /**
   * Over every history, whatever its operations and its faults: no two invocations are of one effect unless its
   * tool is registered as retry-safe; each invocation was of the tool and the arguments of the latest stored
   * request, of a log that replayed to TOOL_RUNNING, with no receipt stored; no run asked the adapter twice about
   * one turn; of a run that replays, no more often than its budget allows, and in VERIFYING its evidence is stored.
   * A run replays as long as each operation on it fitted, whatever was done to other runs.
   */
  method Live(processes: seq<Process>, registry: Text -> Option<bool>)
    returns (events: EventStore, store: ToolEffectStore, ghost ledger: seq<Invocation>, ghost calls: seq<AdapterCall>,
             ghost stops: seq<Storage>)
    requires forall i :: 0 <= i < |processes| ==> processes[i].config.registry == registry
    ensures events.Valid() && store.Valid()
    ensures |stops| == |processes| + 1 && stops[0] == Storage(map[], map[], Effects(map[], map[], []))
    ensures stops[|processes|] == DatabaseOf(events, store, ledger)
    ensures forall n :: 0 <= n < |processes| ==> Touches(RunOf(processes[n].operation), stops[n], stops[n + 1])
    ensures forall run: Name :: AlwaysFitted(run, processes, stops) ==> Accepted(run, events.Log(run))
    ensures forall i, j :: 0 <= i < j < |ledger| && ledger[i].effectId == ledger[j].effectId ==>
              registry(ledger[j].toolName) == Some(true)
    ensures forall i :: 0 <= i < |ledger| ==>
              Justified(ledger[i]) && ledger[i].log <= events.Log(OwnerOf(ledger[i].effectId))
    ensures forall id :: id in store.receipts ==> exists i :: ToldBy(ledger, i, store.receipts[id])
    ensures forall run: Name :: Accepted(run, events.Log(run)) && StateOf(run, events.Log(run)).status.Verifying? ==>
              Evidence(run, WorldIn(DatabaseOf(events, store, ledger), run))
    ensures forall i, j :: 0 <= i < j < |calls| && calls[i].runId == calls[j].runId ==> calls[i].turn < calls[j].turn
    ensures forall run: Name :: Accepted(run, events.Log(run)) && StateOf(run, events.Log(run)).maxSteps.Some? ==>
              CallsFor(calls, run) <= StateOf(run, events.Log(run)).maxSteps.value
  {
    hide Sound, CallsInOrder, GoodTables, Trusted, EventsOf, Accepted, Fits, Touches;
    events := new EventStore();
    store := new ToolEffectStore();
    ledger, calls := [], [];
    stops := [DatabaseOf(events, store, ledger)];
    SoundEmpty(registry, DatabaseOf(events, store, ledger));
    for n := 0 to |processes|
      invariant fresh(events) && fresh(store)
      invariant events.Valid() && store.Valid()
      invariant Sound(registry, DatabaseOf(events, store, ledger))
      invariant CallsInOrder(calls, DatabaseOf(events, store, ledger))
      invariant |stops| == n + 1 && stops[0] == Storage(map[], map[], Effects(map[], map[], []))
      invariant stops[n] == DatabaseOf(events, store, ledger)
      invariant forall m :: 0 <= m < n ==> Touches(RunOf(processes[m].operation), stops[m], stops[m + 1])
      invariant forall run: Name :: AlwaysFitted(run, processes[..n], stops) ==> Accepted(run, LogIn(stops[n], run))
    {
      ghost var before := stops;
      ledger, calls := Perform(processes[n], events, store, ledger, calls);
      stops := stops + [DatabaseOf(events, store, ledger)];
      ghost var done := processes[..n + 1];
      assert done == processes[..n] + [processes[n]];
      forall run: Name | AlwaysFitted(run, done, stops) ensures Accepted(run, LogIn(stops[n + 1], run)) {
        StillFits(run, processes[..n], processes[n], before, stops[n + 1]);
      }
    }
    ghost var st := DatabaseOf(events, store, ledger);
    assert processes[..|processes|] == processes;
    SafetyOf(registry, st, calls);
    assert forall run :: events.Log(run) == LogIn(st, run);
  }

  /** A history that fitted so far, and one more process: the run still replays if the process fits, too. */
  lemma StillFits(run: Name, processes: seq<Process>, process: Process, stops: seq<Storage>, st: Storage)
    requires |stops| == |processes| + 1 && Stepped(process, stops[|processes|], st)
    requires AlwaysFitted(run, processes, stops) ==> Accepted(run, LogIn(stops[|processes|], run))
    ensures AlwaysFitted(run, processes + [process], stops + [st]) ==> Accepted(run, LogIn(st, run))
  {
    hide Accepted, LogIn, Fits, OnlyOwnEffects, WriteOnce;
    var all := processes + [process];
    if AlwaysFitted(run, all, stops + [st]) {
      forall n | 0 <= n < |processes| && RunOf(processes[n].operation) == run ensures Fits(processes[n], stops[n]) {
        assert Fits(all[n], (stops + [st])[n]);
      }
      if RunOf(process.operation) == run {
        assert Fits(all[|processes|], (stops + [st])[|processes|]);
      }
    }
  }

  /** What soundness means for a reader of the database. */
  lemma SafetyOf(registry: Text -> Option<bool>, st: Storage, calls: seq<AdapterCall>)
    requires Sound(registry, st) && CallsInOrder(calls, st)
    ensures forall i, j :: 0 <= i < j < |st.fx.ledger| && st.fx.ledger[i].effectId == st.fx.ledger[j].effectId ==>
              registry(st.fx.ledger[j].toolName) == Some(true)
    ensures forall i :: 0 <= i < |st.fx.ledger| ==>
              Justified(st.fx.ledger[i]) && st.fx.ledger[i].log <= LogIn(st, OwnerOf(st.fx.ledger[i].effectId))
    ensures forall id :: id in st.fx.receipts ==> exists i :: ToldBy(st.fx.ledger, i, st.fx.receipts[id])
    ensures forall run: Name :: Accepted(run, LogIn(st, run)) && StateOf(run, LogIn(st, run)).status.Verifying? ==>
              Evidence(run, WorldIn(st, run))
    ensures forall i, j :: 0 <= i < j < |calls| && calls[i].runId == calls[j].runId ==> calls[i].turn < calls[j].turn
    ensures forall run: Name :: Accepted(run, LogIn(st, run)) && StateOf(run, LogIn(st, run)).maxSteps.Some? ==>
              CallsFor(calls, run) <= StateOf(run, LogIn(st, run)).maxSteps.value
  {
    hide Inv, Accepted, LogIn, Justified, StateOf, Evidence, CallsFor, ToldBy;
    forall run: Name | Accepted(run, LogIn(st, run))
      ensures StateOf(run, LogIn(st, run)).status.Verifying? ==> Evidence(run, WorldIn(st, run))
      ensures StateOf(run, LogIn(st, run)).maxSteps.Some? ==>
                CallsFor(calls, run) <= StateOf(run, LogIn(st, run)).maxSteps.value
    {
      assert Kept(run, st);
      EvidenceOf(run, WorldIn(st, run));
      if StateOf(run, LogIn(st, run)).maxSteps.Some? {
        CallsWithinBudget(run, calls, st);
      }
    }
  }

  lemma EvidenceOf(run: Text, w: World)
    requires Inv(run, w)
    ensures w.state.status.Verifying? ==> Evidence(run, w)
  {
    hide Coherent, TurnFacts, Evidence, OpenIntents;
  }
}
