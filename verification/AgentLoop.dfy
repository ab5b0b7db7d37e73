/** The bounded model loop and its restarts (src/agent_runtime_lab/fake_agent.py:192-506). */
module AgentLoop {
  import opened Values
  import opened Events
  import opened RunStates
  import opened Reducer
  import opened Replay
  import opened Lifecycle
  import opened ToolEffects
  import opened Protocol
  import opened RunInvariant
  import opened Continuation
  import opened Guards
  import opened Recovery
  import opened Storages
  import opened OperationSteps
  import opened LoopSteps
  import opened AdapterCalls
  import opened LoopEvidence
  import opened Runtime
  import opened EventStores

  datatype LoopOutcome = COMPLETED | FAILED | PAUSED

  datatype LoopResult = LoopResult(outcome: LoopOutcome, state: RunState, actions: seq<ModelAction>,
                                   toolResults: seq<ToolResult>, verifications: seq<VerificationResult>,
                                   completions: seq<CompletionResult>, recoveredReceipts: seq<ToolReceipt>)

  /** What one dispatched tool call reports; a call that did not reach VERIFYING has no verification. */
  datatype CallReport = CallReport(result: ToolResult, verification: Option<VerificationResult>)

  /** Either the run failed, or the turn's action is durable and was read back. */
  ghost predicate ActionRequested(run: Text, before: World, w: World, action: Option<DurableModelAction>) {
    match action
    case None => w.state.status.Failed? && w.state.turnIndex == before.state.turnIndex
    case Some(pending) =>
      w.state.status.ActionPending? && PendingOf(run, w) == Done(pending) && w.state.turnIndex == before.state.turnIndex
  }

  /** A verified call consumed the turn or failed the run; any other ended the loop at a gate or in failure. */
  ghost predicate Dispatched(before: World, w: World, report: CallReport) {
    match report.verification
    case None =>
      && (if report.result.outcome == ToolResultKind.AWAITING_GATE then w.state.status.AwaitingGate?
          else w.state.status.Failed?)
      && w.state.turnIndex == before.state.turnIndex
    case Some(v) =>
      && report.result.outcome == EXECUTED
      && w.state.turnIndex == before.state.turnIndex + Bit(v.passed)
      && (if v.passed then w.state.status.Ready? else w.state.status.Failed?)
  }

  lemma InputNames(run: Text, w: World)
    ensures TurnInput(run, w).runId == run && TurnInput(run, w).turnIndex == w.state.turnIndex
    ensures TurnInput(run, w).stepId == StepName(w.state.turnIndex + 1) && TurnInput(run, w).observationJson == Observe(w.log)
  {
  }

  lemma GateWaits(w: World, result: ToolResult)
    requires result.outcome == ToolResultKind.AWAITING_GATE ==>
               result.proposal.Some? && ReferenceIsActive(w.state, result.proposal.value.reference)
    ensures result.outcome == ToolResultKind.AWAITING_GATE ==> w.state.status.AwaitingGate?
  {
  }

  lemma ExecutedStatus(w: World, request: ToolRequest, result: ToolResult)
    requires result.receipt.Some? && Reported(w, request, w.state, result.receipt.value)
    ensures w.state.status.Verifying? || w.state.status.Failed?
  {
    hide ActiveRequest;
  }

  /** What one turn adds to the evidence, and how the loop ends if it does. */
  datatype TurnReport = TurnReport(account: Account, ended: Option<LoopOutcome>)

  function Passed(verifications: seq<VerificationResult>): nat {
    if verifications == [] then 0
    else Passed(verifications[..|verifications| - 1]) + Bit(verifications[|verifications| - 1].passed)
  }

  lemma {:induction false} PassedConcat(a: seq<VerificationResult>, b: seq<VerificationResult>)
    ensures Passed(a + b) == Passed(a) + Passed(b)
  {
    if b == [] {
      assert a + b == a;
    } else {
      var n := |b| - 1;
      PassedConcat(a, b[..n]);
      assert (a + b)[..|a| + n] == a + b[..n];
    }
  }

  lemma PassedOne(v: VerificationResult)
    ensures Passed([v]) == Bit(v.passed)
  {
    assert [v][..0] == [];
  }

  /** What the loop adds to one recovered and verified call is accounted for together with it. */
  lemma AccountedFromRecovery(before: World, v: World, w: World, start: LoopResult, result: LoopResult)
    requires Accounted(start, v.state.turnIndex, result) && result.state == w.state
    requires |start.actions| == 1 == |start.recoveredReceipts| && start.toolResults == [] && start.completions == []
    requires v.state.turnIndex == before.state.turnIndex + Passed(start.verifications)
    ensures AccountsForAll(before, w, result)
  {
  }

  /** The durable status that an outcome stands for. */
  predicate Tells(outcome: LoopOutcome, status: Status) {
    match outcome
    case COMPLETED => status.Completed?
    case FAILED => status.Failed?
    case PAUSED => status.AwaitingGate?
  }

  /** One turn either goes on to READY with the next turn, or ends the loop in the status it tells. */
  ghost predicate TurnTaken(before: World, w: World, report: TurnReport) {
    && w.state.turnIndex == before.state.turnIndex + Passed(report.account.verifications) + |report.account.completions|
    && |report.account.actions| == |report.account.toolResults| + |report.account.completions|
    && match report.ended
       case None => w.state.status.Ready? && w.state.turnIndex == before.state.turnIndex + 1
       case Some(outcome) => Tells(outcome, w.state.status)
  }

  /**
   * Where a loop that did not crash has arrived: at the end of the uninterrupted run from where it started;
   * in failure, if the previous process had asked the adapter and stopped; or, where a verdict did not speak,
   * behind a log that no longer replays.
   */
  ghost predicate LoopEnded(cfg: Config, run: Text, before: World, w: World, r: Outcome<LoopResult>) {
    && (r.Done? ==> r.value.state == w.state && Tells(r.value.outcome, w.state.status))
    && if before.state.status.ModelPending? then
         && !r.Raised?
         && (w == before
             || w == Appended(cfg, run, before, ModelActionFailed(Str(Literal(ADAPTER_OUTCOME_UNKNOWN))), []))
         && (r.Done? ==> r.value.outcome == LoopOutcome.FAILED)
       else
         && WentAlong(cfg, run, before, w)
         && (if Silenced(w.log) then !r.Done? else !r.Crashed? && Observed(before) ==> Next(cfg, run, w).None?)
  }

  /**
   * The evidence accounts for what happened since it began: one passed verification or completion for each
   * turn consumed, and one tool result, completion or recovered receipt for each action.
   */
  ghost predicate Accounted(start: LoopResult, turn: nat, result: LoopResult) {
    && Passed(result.verifications) + |result.completions| - result.state.turnIndex ==
       Passed(start.verifications) + |start.completions| - turn
    && |result.actions| - |result.toolResults| - |result.completions| ==
       |start.actions| - |start.toolResults| - |start.completions|
    && result.recoveredReceipts == start.recoveredReceipts
  }

  /** The evidence of one whole call of the loop. */
  ghost predicate AccountsForAll(before: World, w: World, result: LoopResult) {
    && Passed(result.verifications) + |result.completions| == w.state.turnIndex - before.state.turnIndex
    && |result.actions| == |result.toolResults| + |result.completions| + |result.recoveredReceipts|
  }

  /** What the log says has happened since `before` comes behind what was handed over. */
  ghost predicate Extends(cfg: Config, run: Text, before: World, w: World, start: LoopResult, result: LoopResult) {
    && before.log <= w.log && |start.toolResults| <= |result.toolResults|
    && var added := w.log[|before.log|..];
    && result.actions == start.actions + Waiting(run, before) + Carried(added, ReadAction)
    && result.verifications == start.verifications + Carried(added, ReadVerdict)
    && result.completions == start.completions + Carried(added, ReadCompletion)
    && result.toolResults[..|start.toolResults|] == start.toolResults
    && ResultsTell(cfg, run, w, Carried(added, ReadRequest), result.toolResults[|start.toolResults|..])
    && result.recoveredReceipts == start.recoveredReceipts
  }

  /** The action that a call of the loop finds: the one that waits to be dispatched, or to be verified. */
  ghost function Found(run: Text, w: World): seq<ModelAction> {
    if !w.state.status.Verifying? then Waiting(run, w)
    else match ActiveRequest(run, w.log) case Some(request) => [CallOf(request)] case None => []
  }

  /**
   * The evidence of one whole call of the loop is what the log says.  Its actions are the one that was found and then
   * those proposed, its verdicts and decisions those persisted, its tool results those of the requests made, all in
   * the order of the log; and a recovered receipt is the stored one of the request that was in force.
   */
  ghost predicate TellsLog(cfg: Config, run: Text, before: World, w: World, result: LoopResult) {
    && before.log <= w.log
    && var added := w.log[|before.log|..];
    && result.actions == Found(run, before) + Carried(added, ReadAction)
    && result.verifications == Carried(added, ReadVerdict)
    && result.completions == Carried(added, ReadCompletion)
    && ResultsTell(cfg, run, w, Carried(added, ReadRequest), result.toolResults)
    && (if before.state.status.Verifying? then
          |result.recoveredReceipts| == 1 && EvidenceIs(run, before, result.recoveredReceipts[0])
        else result.recoveredReceipts == [])
  }

  /** What the loop has gathered on its way from w to v: what it started with, and behind it what it recounts. */
  ghost predicate Gathered(cfg: Config, run: Text, w: World, v: World, start: LoopResult, told: Account, all: Account) {
    && Recounts(cfg, run, w, v, told)
    && all == Account(start.actions + told.actions, start.toolResults + told.toolResults,
                      start.verifications + told.verifications, start.completions + told.completions)
    && Passed(told.verifications) + |told.completions| == v.state.turnIndex - w.state.turnIndex
    && |told.actions| == |told.toolResults| + |told.completions|
  }

  lemma GatheredNothing(cfg: Config, run: Text, w: World, start: LoopResult)
    ensures Gathered(cfg, run, w, w, start, Nothing(),
                     Account(start.actions, start.toolResults, start.verifications, start.completions))
  {
    hide Recounts;
    RecountsSelf(cfg, run, w);
  }

  lemma GatheredTurn(cfg: Config, run: Text, w: World, v: World, x: World, start: LoopResult, told: Account, all: Account,
                     turn: TurnReport)
    requires Gathered(cfg, run, w, v, start, told, all) && Recounts(cfg, run, v, x, turn.account) && TurnTaken(v, x, turn)
    ensures Gathered(cfg, run, w, x, start, Joint(told, turn.account), Joint(all, turn.account))
  {
    hide Recounts, Passed;
    RecountsChain(cfg, run, w, v, x, told, turn.account);
    PassedConcat(told.verifications, turn.account.verifications);
    assert (start.actions + told.actions) + turn.account.actions == start.actions + (told.actions + turn.account.actions);
    assert (start.toolResults + told.toolResults) + turn.account.toolResults ==
           start.toolResults + (told.toolResults + turn.account.toolResults);
    assert (start.verifications + told.verifications) + turn.account.verifications ==
           start.verifications + (told.verifications + turn.account.verifications);
    assert (start.completions + told.completions) + turn.account.completions ==
           start.completions + (told.completions + turn.account.completions);
  }

  /** A stretch that adds nothing. */
  lemma GatheredStill(cfg: Config, run: Text, w: World, v: World, x: World, start: LoopResult, told: Account, all: Account)
    requires Gathered(cfg, run, w, v, start, told, all) && Recounts(cfg, run, v, x, Nothing())
    requires x.state.turnIndex == v.state.turnIndex
    ensures Gathered(cfg, run, w, x, start, told, all)
  {
    hide Recounts, Passed;
    RecountsChain(cfg, run, w, v, x, told, Nothing());
    assert Joint(told, Nothing()) == told;
  }

  /** What the loop has gathered by the time that nothing waits any more. */
  lemma GatheredExtends(cfg: Config, run: Text, w: World, v: World, start: LoopResult, told: Account, all: Account,
                        result: LoopResult)
    requires Gathered(cfg, run, w, v, start, told, all) && !v.state.status.ActionPending? && result.state == v.state
    requires all == Account(result.actions, result.toolResults, result.verifications, result.completions)
    requires result.recoveredReceipts == start.recoveredReceipts
    ensures Extends(cfg, run, w, v, start, result) && Accounted(start, w.state.turnIndex, result)
  {
    hide Waiting, Carried, ResultTells, Passed;
    NothingWaits(run, v);
    PassedConcat(start.verifications, told.verifications);
    var added := v.log[|w.log|..];
    assert told.actions == Waiting(run, w) + Carried(added, ReadAction);
    assert start.actions + (Waiting(run, w) + Carried(added, ReadAction)) ==
           start.actions + Waiting(run, w) + Carried(added, ReadAction);
    assert result.toolResults[|start.toolResults|..] == told.toolResults;
  }

  lemma FoundCall(run: Text, w: World, action: ModelAction, receipt: ToolReceipt)
    requires w.state.status.Verifying? && EvidenceIs(run, w, receipt)
    requires action == CallOf(ActiveRequest(run, w.log).value)
    ensures Found(run, w) == [action]
  {
    hide ActiveRequest, CallOf;
  }

  /** A loop that starts with empty hands tells the log, where it does not start with a verification. */
  lemma ExtendsTells(cfg: Config, run: Text, before: World, w: World, start: LoopResult, result: LoopResult)
    requires Extends(cfg, run, before, w, start, result) && !before.state.status.Verifying?
    requires start.actions == [] && start.toolResults == [] && start.verifications == [] && start.completions == []
    requires start.recoveredReceipts == []
    ensures TellsLog(cfg, run, before, w, result)
  {
    hide Waiting, Carried, ResultTells;
    assert result.toolResults[0..] == result.toolResults;
  }

  /** The recovered call's action, verdict and receipt come first. */
  lemma RecoveryTells(cfg: Config, run: Text, before: World, v: World, w: World, verdict: VerificationResult,
                      receipt: ToolReceipt, start: LoopResult, result: LoopResult)
    requires before.state.status.Verifying? && EvidenceIs(run, before, receipt) && !v.state.status.ActionPending?
    requires Recounts(cfg, run, before, v, Account([], [], [verdict], []))
    requires start.actions == Found(run, before) && start.toolResults == [] && start.verifications == [verdict]
    requires start.completions == [] && start.recoveredReceipts == [receipt]
    requires Extends(cfg, run, v, w, start, result)
    ensures TellsLog(cfg, run, before, w, result)
  {
    hide Waiting, Carried, ResultTells, EvidenceIs, Found;
    NothingWaits(run, before);
    NothingWaits(run, v);
    var first, second := v.log[|before.log|..], w.log[|v.log|..];
    assert w.log[|before.log|..] == first + second;
    CarriedConcat(first, second, ReadAction);
    CarriedConcat(first, second, ReadVerdict);
    CarriedConcat(first, second, ReadCompletion);
    CarriedConcat(first, second, ReadRequest);
    assert result.toolResults[0..] == result.toolResults;
  }

  /** A call of the loop that ends with the recovered verdict. */
  lemma VerdictTells(cfg: Config, run: Text, before: World, v: World, verdict: VerificationResult, receipt: ToolReceipt,
                     result: LoopResult)
    requires before.state.status.Verifying? && EvidenceIs(run, before, receipt) && !v.state.status.ActionPending?
    requires Recounts(cfg, run, before, v, Account([], [], [verdict], []))
    requires result.actions == Found(run, before) && result.toolResults == [] && result.verifications == [verdict]
    requires result.completions == [] && result.recoveredReceipts == [receipt]
    ensures TellsLog(cfg, run, before, v, result)
  {
    hide Waiting, Carried, ResultTells, EvidenceIs, Found;
    NothingWaits(run, before);
    NothingWaits(run, v);
  }

  // ----- The agent -----

  class ModelDrivenAgent {
    const runtime: AuthorizedToolRuntime
    const adapter: ModelAdapter
    const runId: Name

    constructor (runtime: AuthorizedToolRuntime, adapter: ModelAdapter, runId: Name)
      ensures this.runtime == runtime && this.adapter == adapter && this.runId == runId
    {
      this.runtime, this.adapter, this.runId := runtime, adapter, runId;
    }

    ghost function World(): World
      reads runtime.events, runtime.executor.store, runtime.executor.runner
    {
      runtime.WorldOf(runId)
    }

    /** The runtime is valid, and the adapter was called in order. */
    ghost predicate Valid()
      reads runtime.events, runtime.executor.store, runtime.executor.runner, adapter
    {
      runtime.Valid() && adapter.reply == runtime.config.adapter && CallsInOrder(adapter.calls, runtime.Facts())
    }

    /** The agent's own run can be loaded and keeps the runtime's promises. */
    ghost predicate Keeps()
      reads runtime.events, runtime.executor.store, runtime.executor.runner
    {
      runtime.Loads(runId) && Inv(runId, World())
    }

    /** A run that is kept keeps its promises as soon as it loads. */
    lemma KeptLoads()
      requires Kept(runId, runtime.Facts())
      ensures runtime.Loads(runId) ==> Keeps()
      ensures World().log == runtime.events.Log(runId)
    {
      hide Inv, Accepted, StateOf;
    }

    lemma KeptAgain()
      requires Keeps() || !Accepted(runId, World().log)
      ensures Kept(runId, runtime.Facts())
    {
      hide Inv, Accepted, StateOf;
    }

    /** READY: persist the intent, call the adapter once, persist its action; None where the run failed instead. */
    method RequestAction() returns (r: Outcome<Option<DurableModelAction>>)
      requires Valid() && Keeps() && World().state.status.Ready?
      modifies runtime.events`tables, runtime.events`identities, adapter
      ensures Valid() && Keeps() && Touches(runId, old(runtime.Facts()), runtime.Facts())
      ensures Follows(runtime.config, runId, old(World()), World())
      ensures !r.Raised?
      ensures r.Done? ==> ActionRequested(runId, old(World()), World(), r.value)
      ensures r.Done? ==> Recounts(runtime.config, runId, old(World()), World(), Nothing())
    {
      hide Touches, Appended, WorldIn, Accepted, GoodTables, Trusted, HonestIndex, LedgerSound, EventsOf, Inv, Coherent,
           RaisesOnLoad, Follows, Next, CallsInOrder, LogIn, Disciplined, AlwaysSpeaks, Step, Observe, TurnInput,
           AskPayload, MayBegin, MayPropose, PendingOf, Persisted, Recounts, AuthorizedToolRuntime.Valid,
           AuthorizedToolRuntime.Loads;
      ghost var a, w := runtime.Facts(), World();
      ghost var calls := adapter.calls;
      WorldFields(runId, a);
      InvIsCoherent(runId, w);
      FollowsSelf(runtime.config, runId, w);
      if !HasBudget(w.state) {
        BudgetEndStep(runtime.config, runId, w);
        BudgetEndTold(runtime.config, runId, w);
      } else {
        AskStep(runtime.config, runId, w);
        AskTold(runtime.config, runId, w);
      }
      var built := runtime.BuildModelInput(runId);
      CallsStay(runId, calls, a, runtime.Facts());
      if !built.Done? {
        return if built.Raised? then Done(None) else Crashed;
      }
      var context := built.value;
      InputNames(runId, w);
      var begun := runtime.BeginModelAction(context);
      ghost var b, v := runtime.Facts(), World();
      AskedIsNew(runtime.config, runId, calls, a, b);
      FollowsKeeps(runtime.config, runId, w, v);
      var invocation :- begun;
      r := ReceiveAction(context, invocation);
      FollowsChain(runtime.config, runId, w, v, World());
      TouchesChain(runId, a, b, runtime.Facts());
      if r.Done? {
        RecountsChain(runtime.config, runId, w, v, World(), Nothing(), Nothing());
        NothingFirst(Nothing());
      }
    }

    /** MODEL_PENDING in the process that asked: call the adapter and persist what it answered. */
    method ReceiveAction(context: ModelInput, invocation: Text) returns (r: Outcome<Option<DurableModelAction>>)
      requires Valid() && Keeps() && World().state.status.ModelPending?
      requires context == TurnInput(runId, World()) && MayPropose(World().state, context, invocation)
      requires CallsInOrder(adapter.calls + [AdapterCall(runId, World().state.turnIndex)], runtime.Facts())
      modifies runtime.events`tables, runtime.events`identities, adapter
      ensures Valid() && Keeps() && Touches(runId, old(runtime.Facts()), runtime.Facts())
      ensures Follows(runtime.config, runId, old(World()), World())
      ensures !r.Raised?
      ensures r.Done? ==> ActionRequested(runId, old(World()), World(), r.value)
      ensures r.Done? ==> Recounts(runtime.config, runId, old(World()), World(), Nothing())
    {
      hide Touches, Appended, WorldIn, Accepted, GoodTables, Trusted, HonestIndex, LedgerSound, EventsOf, Inv, Coherent,
           RaisesOnLoad, Follows, Next, CallsInOrder, LogIn, Disciplined, AlwaysSpeaks, Observe, TurnInput, PendingOf,
           ProposalPayload, PendingIs, Recounts;
      ghost var a, w := runtime.Facts(), World();
      InputNames(runId, w);
      AnswerStep(runtime.config, runId, w, invocation);
      InvIsCoherent(runId, w);
      FollowsSelf(runtime.config, runId, w);
      TouchesSelf(runId, a);
      var answer := adapter.NextAction(context);
      ghost var calls := adapter.calls;
      if * {
        return Crashed;
      }
      match answer {
        case AdapterFails =>
          var failed := runtime.RecordModelActionFailure(runId, Literal(ADAPTER_FAILED));
          CallsStay(runId, calls, a, runtime.Facts());
          FollowsKeeps(runtime.config, runId, w, World());
          UntoldEvent(runtime.config, runId, w, ModelActionFailed(Str(Literal(ADAPTER_FAILED))), []);
          return if failed.Crashed? then Crashed else Done(None);
        case Proposes(action) =>
          var persisted := runtime.PersistModelAction(context, invocation, action);
          CallsStay(runId, calls, a, runtime.Facts());
          FollowsKeeps(runtime.config, runId, w, World());
          PendingIsExact(runId, World());
          ProposalTold(runtime.config, runId, w, invocation, w.state.turnIndex, action);
          if * {
            return Crashed;
          }
          var pending :- persisted;
          return Done(Some(pending));
      }
    }

    /** ACTION_PENDING with a final answer: judge it and persist the decision, which consumes the turn. */
    method JudgeAnswer(pending: DurableModelAction) returns (r: Outcome<(RunState, CompletionResult)>)
      requires Valid() && Keeps() && World().state.status.ActionPending? && PendingOf(runId, World()) == Done(pending)
      requires pending.action.FinalAnswerAction?
      modifies runtime.events`tables, runtime.events`identities
      ensures Valid() && Keeps() && Touches(runId, old(runtime.Facts()), runtime.Facts())
      ensures Follows(runtime.config, runId, old(World()), World())
      ensures r.Done? ==>
                && r.value.0 == World().state && World().state.turnIndex == old(World()).state.turnIndex + 1
                && (if r.value.1.accepted then World().state.status.Completed? else World().state.status.Ready?)
                && Recounts(runtime.config, runId, old(World()), World(), Account([pending.action], [], [], [r.value.1]))
      ensures r.Raised? && Observed(old(World())) ==> Next(runtime.config, runId, World()).None?
    {
      hide Touches, Appended, WorldIn, Accepted, GoodTables, Trusted, HonestIndex, LedgerSound, EventsOf, Inv, Coherent,
           RaisesOnLoad, Follows, Next, CallsInOrder, LogIn, Disciplined, AlwaysSpeaks, Observe, TurnInput, MayComplete,
           ActionOf, CompletionPayload, PendingOf, Observed, Recounts;
      ghost var a, w := runtime.Facts(), World();
      InvIsCoherent(runId, w);
      PendingIsExact(runId, w);
      InputNames(runId, w);
      CompletionStep(runtime.config, runId, w, pending);
      FollowsSelf(runtime.config, runId, w);
      var completion := runtime.config.complete(pending.action.answer, pending.context);
      var state := runtime.RecordCompletion(pending.context, pending.action.answer, completion);
      CallsStay(runId, adapter.calls, a, runtime.Facts());
      FollowsKeeps(runtime.config, runId, w, World());
      var decided :- state;
      AnswerTold(runtime.config, runId, w, pending, completion);
      return Done((decided, completion));
    }

    /**
     * VERIFYING: check the receipt of the request in force on the given input and persist the result, which is the
     * next step if the input is the one that the log rebuilds.  A failure without a reason is persisted like any
     * other, and leaves a log that no longer replays.
     */
    method VerifyStep(context: ModelInput, action: ModelAction, receipt: ToolReceipt)
      returns (r: Outcome<(RunState, VerificationResult)>)
      requires Valid() && Keeps() && World().state.status.Verifying? && EvidenceIs(runId, World(), receipt)
      requires World().state.activeStepId.Some? && action == CallOf(ActiveRequest(runId, World().log).value)
      modifies runtime.events`tables, runtime.events`identities
      ensures Valid() && Touches(runId, old(runtime.Facts()), runtime.Facts())
      ensures var v := runtime.config.verify(context, action, receipt);
              var own := context == CallInput(runId, old(World()), old(World()).state.activeStepId.value);
              if Speaks(v) then
                && Keeps() && Grows(runId, old(World()), World())
                && (own ==> Follows(runtime.config, runId, old(World()), World()))
                && !r.Raised?
                && (r.Done? ==>
                      && r.value == (World().state, v)
                      && World().state.turnIndex == old(World()).state.turnIndex + Bit(v.passed)
                      && (if v.passed then World().state.status.Ready? else World().state.status.Failed?)
                      && Recounts(runtime.config, runId, old(World()), World(), Account([], [], [v], [])))
              else
                && BreaksOff(runtime.config, runId, old(World()), World()) && !r.Done?
                && (own ==> Broke(runtime.config, runId, old(World()), World()))
    {
      hide Touches, Appended, WorldIn, Accepted, GoodTables, Trusted, HonestIndex, LedgerSound, EventsOf, Inv, Coherent,
           RaisesOnLoad, Follows, Grows, Next, CallsInOrder, LogIn, Disciplined, AlwaysSpeaks, Observe, TurnInput,
           EvidenceIs, ActiveRequest, StepVerificationPayload, Broke, BreaksOff, CallInput, Persisted, Recounts;
      ghost var a := runtime.Facts();
      var verification := runtime.config.verify(context, action, receipt);
      var state := runtime.RecordStepVerification(runId, verification);
      CallsStay(runId, adapter.calls, a, runtime.Facts());
      VerdictIsPersisted(runtime.config, runId, a, runtime.Facts(), context, action, receipt);
      var recorded :- state;
      return Done((recorded, verification));
    }

    /** ACTION_PENDING with a tool call: submit it, and verify its receipt if it succeeded. */
    method DispatchCall(pending: DurableModelAction) returns (r: Outcome<CallReport>)
      requires Valid() && Keeps() && World().state.status.ActionPending? && PendingOf(runId, World()) == Done(pending)
      requires pending.action.ToolCallAction?
      modifies runtime.events`tables, runtime.events`identities, runtime.executor.store, runtime.executor.runner
      ensures Valid() && Touches(runId, old(runtime.Facts()), runtime.Facts())
      ensures if Silenced(World().log) then Broke(runtime.config, runId, old(World()), World()) && !r.Done?
              else
                && Keeps() && Follows(runtime.config, runId, old(World()), World())
                && (r.Done? ==>
                      && Dispatched(old(World()), World(), r.value)
                      && Recounts(runtime.config, runId, old(World()), World(), AccountOf(pending.action, r.value)))
                && (r.Raised? ==> Next(runtime.config, runId, World()).None?)
    {
      hide Touches, Appended, WorldIn, Accepted, GoodTables, Trusted, HonestIndex, LedgerSound, EventsOf, Inv, Coherent,
           RaisesOnLoad, Follows, Next, CallsInOrder, LogIn, Disciplined, AlwaysSpeaks, Observe, TurnInput, CallInput,
           EvidenceIs, ActiveRequest, MayRequest, Reported, ActionOf, PendingOf, PendingIs, ReferenceIsActive, Broke,
           Silenced, RequestPayload, Along, Grows, BreaksOff, Observed, Recounts, Decided, InCall;
      ghost var a, w := runtime.Facts(), World();
      PendingIsExact(runId, w);
      InvIsCoherent(runId, w);
      PendingCall(runId, w, pending);
      RequestIsNext(runtime.config, runId, w, pending);
      PendingNames(runId, w, pending);
      var call := pending.action;
      var request := ToolRequest(runId, pending.context.stepId, call.toolCallId, call.toolName, call.argumentsJson,
                                 Some(pending.eventId));
      var submitted := runtime.Submit(request);
      ghost var b, v := runtime.Facts(), World();
      CallsStay(runId, adapter.calls, a, b);
      SubmittedFollows(runtime.config, runId, w, v, request, submitted);
      var result :- submitted;
      LaterByTouch(runId, a, b);
      InvIsCoherent(runId, v);
      CallTold(runtime.config, runId, w, v, pending, request, result);
      DecidedParts(runtime.config, v, request, result);
      if result.outcome != EXECUTED {
        GateWaits(v, result);
        return Done(CallReport(result, None));
      }
      ExecutedStatus(v, request, result);
      if result.receipt.None? || !result.state.status.Verifying? {
        return Done(CallReport(result, None));
      }
      ReportedIsEvidence(runId, v, request, result.receipt.value);
      OwnCallInput(runId, w, v, pending);
      var verified := VerifyStep(pending.context, call, result.receipt.value);
      VerdictFollows(runtime.config, runId, w, v, World(),
                     Speaks(runtime.config.verify(pending.context, call, result.receipt.value)));
      TouchesChain(runId, a, b, runtime.Facts());
      var recorded :- verified;
      VerifiedCallTold(runtime.config, runId, w, v, World(), call, result, recorded.1);
      return Done(CallReport(result, Some(recorded.1)));
    }

    /** READY or ACTION_PENDING: obtain the turn's action and dispatch it. */
    method TakeTurn() returns (r: Outcome<TurnReport>)
      requires Valid() && Keeps() && (World().state.status.Ready? || World().state.status.ActionPending?)
      modifies runtime.events`tables, runtime.events`identities, runtime.executor.store, runtime.executor.runner, adapter
      ensures Valid() && Touches(runId, old(runtime.Facts()), runtime.Facts())
      ensures if Silenced(World().log) then Broke(runtime.config, runId, old(World()), World()) && !r.Done?
              else
                && Keeps() && Follows(runtime.config, runId, old(World()), World())
                && (r.Done? ==>
                      && TurnTaken(old(World()), World(), r.value)
                      && Recounts(runtime.config, runId, old(World()), World(), r.value.account))
                && (r.Raised? && Observed(old(World())) ==> Next(runtime.config, runId, World()).None?)
    {
      hide Touches, Appended, WorldIn, Accepted, GoodTables, Trusted, HonestIndex, LedgerSound, EventsOf, Inv, Coherent,
           RaisesOnLoad, Follows, Next, CallsInOrder, LogIn, Disciplined, AlwaysSpeaks, PendingOf, Broke, Silenced,
           TurnTaken, Observed, Recounts;
      ghost var a, w := runtime.Facts(), World();
      var state := CurrentState();
      if state.status.ActionPending? {
        PendingIsExact(runId, w);
        var loaded := runtime.LoadPendingModelAction(runId);
        r := DispatchAction(loaded.value);
        return;
      }
      var requested := RequestAction();
      ghost var b, v := runtime.Facts(), World();
      AlongByFollowing(runtime.config, runId, w, v);
      FollowsKeeps(runtime.config, runId, w, v);
      var found :- requested;
      if found.None? {
        TurnFailed(w, v);
        return Done(TurnReport(Nothing(), Some(LoopOutcome.FAILED)));
      }
      r := DispatchAction(found.value);
      AlongOfTurn(runtime.config, runId, w, v, World());
      AlongParts(runtime.config, runId, w, World());
      TouchesChain(runId, a, b, runtime.Facts());
      if r.Done? {
        SameTurnTaken(w, v, World(), r.value);
        RecountsChain(runtime.config, runId, w, v, World(), Nothing(), r.value.account);
        NothingFirst(r.value.account);
      }
    }

    /** ACTION_PENDING: judge the answer, or dispatch the call. */
    method DispatchAction(pending: DurableModelAction) returns (r: Outcome<TurnReport>)
      requires Valid() && Keeps() && World().state.status.ActionPending? && PendingOf(runId, World()) == Done(pending)
      modifies runtime.events`tables, runtime.events`identities, runtime.executor.store, runtime.executor.runner
      ensures Valid() && Touches(runId, old(runtime.Facts()), runtime.Facts())
      ensures if Silenced(World().log) then Broke(runtime.config, runId, old(World()), World()) && !r.Done?
              else
                && Keeps() && Follows(runtime.config, runId, old(World()), World())
                && (r.Done? ==>
                      && TurnTaken(old(World()), World(), r.value)
                      && Recounts(runtime.config, runId, old(World()), World(), r.value.account))
                && (r.Raised? && Observed(old(World())) ==> Next(runtime.config, runId, World()).None?)
    {
      hide Touches, Appended, WorldIn, Accepted, GoodTables, Trusted, HonestIndex, LedgerSound, EventsOf, Inv, Coherent,
           RaisesOnLoad, Follows, Next, CallsInOrder, LogIn, Disciplined, AlwaysSpeaks, PendingOf, Broke, Silenced,
           Recounts;
      ghost var w := World();
      if pending.action.FinalAnswerAction? {
        var judged := JudgeAnswer(pending);
        AlongByFollowing(runtime.config, runId, w, World());
        var decided :- judged;
        return Done(TurnReport(Account([pending.action], [], [], [decided.1]),
                               if decided.0.status.Completed? then Some(LoopOutcome.COMPLETED) else None));
      }
      var dispatched := DispatchCall(pending);
      var report :- dispatched;
      CallIsTurn(w, World(), pending.action, report);
      return Done(TurnOf(pending.action, report));
    }

    /** MODEL_PENDING on entry: the previous process asked, and what it was told is not known. */
    method FailUnknownOutcome() returns (r: Outcome<RunState>)
      requires Valid() && Keeps() && World().state.status.ModelPending?
      modifies runtime.events`tables, runtime.events`identities
      ensures Valid() && Keeps() && Touches(runId, old(runtime.Facts()), runtime.Facts())
      ensures World() ==
              Appended(runtime.config, runId, old(World()), ModelActionFailed(Str(Literal(ADAPTER_OUTCOME_UNKNOWN))), [])
      ensures World().state.status.Failed? && World().state.turnIndex == old(World()).state.turnIndex
      ensures !Silenced(World().log)
      ensures |World().log| == |old(World()).log| + 1
      ensures Recounts(runtime.config, runId, old(World()), World(), Nothing())
      ensures r == Done(World().state) || r == Crashed
    {
      hide Touches, Appended, WorldIn, Accepted, GoodTables, Trusted, HonestIndex, LedgerSound, EventsOf, Inv, Coherent,
           RaisesOnLoad, Follows, Next, CallsInOrder, LogIn, Disciplined, AlwaysSpeaks, Silenced, Recounts;
      ghost var a, w := runtime.Facts(), World();
      FailureDecides(runtime.config, runId, w, Literal(ADAPTER_OUTCOME_UNKNOWN));
      UntoldEvent(runtime.config, runId, w, ModelActionFailed(Str(Literal(ADAPTER_OUTCOME_UNKNOWN))), []);
      r := runtime.RecordModelActionFailure(runId, Literal(ADAPTER_OUTCOME_UNKNOWN));
      LastOfAppended(runtime.config, runId, w, ModelActionFailed(Str(Literal(ADAPTER_OUTCOME_UNKNOWN))), []);
      CallsStay(runId, adapter.calls, a, runtime.Facts());
      InvIsCoherent(runId, World());
      FollowersSpeak(runId, World());
    }

    /**
     * The loop itself.  With a budget it terminates because each turn that goes on uses up the budget fixed at
     * creation; without one it may go on for ever, and a process that lives long enough is stopped at some turn.
     * It ends where the uninterrupted run ends, tells the durable status, and accounts for every turn.
     */
    method ContinueLoop(actions: seq<ModelAction>, toolResults: seq<ToolResult>, verifications: seq<VerificationResult>,
                        completions: seq<CompletionResult>, recovered: seq<ToolReceipt>)
      returns (r: Outcome<LoopResult>)
      requires Valid() && Keeps()
      requires World().state.status.Ready? || InModelPhase(World().state.status)
      modifies runtime.events`tables, runtime.events`identities, runtime.executor.store, runtime.executor.runner, adapter
      ensures Valid() && Touches(runId, old(runtime.Facts()), runtime.Facts())
      ensures LoopEnded(runtime.config, runId, old(World()), World(), r)
      ensures if Silenced(World().log) then !Accepted(runId, World().log) else Keeps()
      ensures r.Done? ==>
                var start := LoopResult(PAUSED, old(World()).state, actions, toolResults, verifications, completions, recovered);
                && Extends(runtime.config, runId, old(World()), World(), start, r.value)
                && Accounted(start, old(World()).state.turnIndex, r.value)
      ensures old(World()).state.maxSteps.Some? ==>
                |World().log| <= |old(World()).log| + 7 * TurnsLeft(old(World())) + 1
    {
      hide Touches, Appended, WorldIn, Accepted, GoodTables, Trusted, HonestIndex, LedgerSound, EventsOf, Inv, Coherent,
           RaisesOnLoad, Follows, Next, CallsInOrder, LogIn, Disciplined, AlwaysSpeaks, AuthorizedToolRuntime.Valid,
           AuthorizedToolRuntime.Facts, AuthorizedToolRuntime.WorldOf, AuthorizedToolRuntime.Loads, Bounded,
           TurnsLeft, Silenced, Broke, LoopEnded, Observed, ModelDrivenAgent.Valid, Recounts, Gathered, Extends,
           Accounted, Passed;
      var allActions, allToolResults, allVerifications, allCompletions := actions, toolResults, verifications, completions;
      var patience: nat := *;
      ghost var a, w := runtime.Facts(), World();
      TouchesSelf(runId, a);
      InvIsCoherent(runId, w);
      FollowsSelf(runtime.config, runId, w);
      AlongByFollowing(runtime.config, runId, w, w);
      AlongOfTurn(runtime.config, runId, w, w, w);
      ghost var start := LoopResult(PAUSED, w.state, actions, toolResults, verifications, completions, recovered);
      GatheredNothing(runtime.config, runId, w, start);
      ghost var told := Nothing();
      while true
        invariant Valid() && Keeps() && Touches(runId, a, runtime.Facts())
        invariant Follows(runtime.config, runId, w, World()) && WentAlong(runtime.config, runId, w, World())
        invariant !Silenced(World().log)
        invariant World().state.status.Ready? || InModelPhase(World().state.status)
        invariant World().state.status.ModelPending? ==> World() == w
        invariant w.state.status.ModelPending? ==> World() == w
        invariant WithinAllowance(w, World()) && World().state.maxSteps == w.state.maxSteps
        invariant Gathered(runtime.config, runId, w, World(), start, told,
                           Account(allActions, allToolResults, allVerifications, allCompletions))
        decreases if w.state.maxSteps.Some? then TurnsLeft(World()) else patience
      {
        ghost var b, v := runtime.Facts(), World();
        ghost var all := Account(allActions, allToolResults, allVerifications, allCompletions);
        var current := CurrentState();
        if current.status.ModelPending? {
          RoomToFail(runId, w);
          var failed := FailUnknownOutcome();
          TouchesChain(runId, a, b, runtime.Facts());
          r := if failed.Crashed? then Crashed
               else Done(LoopResult(LoopOutcome.FAILED, failed.value, allActions, allToolResults, allVerifications,
                                    allCompletions, recovered));
          GatheredStill(runtime.config, runId, w, v, World(), start, told, all);
          if r.Done? {
            GatheredExtends(runtime.config, runId, w, World(), start, told, all, r.value);
          }
          EndsOnEntry(runtime.config, runId, w, World(), r);
          return;
        }
        if current.maxSteps.None? {
          if patience == 0 {
            EndsHere(runtime.config, runId, w, World(), Crashed);
            return Crashed;
          }
          patience := patience - 1;
        }
        ObservedAlong(runtime.config, runId, w, v);
        var taken := TakeTurn();
        AlongOfTurn(runtime.config, runId, w, v, World());
        TouchesChain(runId, a, b, runtime.Facts());
        BrokenLog(runtime.config, runId, v, World());
        if !taken.Done? {
          r := if taken.Crashed? then Crashed else Raised(taken.error);
          EndsHere(runtime.config, runId, w, World(), r);
          return;
        }
        var turn := taken.value;
        GatheredTurn(runtime.config, runId, w, v, World(), start, told, all, turn);
        allActions := allActions + turn.account.actions;
        allToolResults := allToolResults + turn.account.toolResults;
        allVerifications := allVerifications + turn.account.verifications;
        allCompletions := allCompletions + turn.account.completions;
        told := Joint(told, turn.account);
        if turn.ended.Some? {
          NothingNext(runtime.config, runId, World());
          var state := CurrentState();
          r := Done(LoopResult(turn.ended.value, state, allActions, allToolResults, allVerifications,
                               allCompletions, recovered));
          GatheredExtends(runtime.config, runId, w, World(), start, told, Joint(all, turn.account), r.value);
          EndsHere(runtime.config, runId, w, World(), r);
          return;
        }
      }
    }

    /** Loading a run that keeps its promises does not fail. */
    method CurrentState() returns (state: RunState)
      requires Valid() && Keeps()
      ensures state == World().state
    {
      hide Touches, Appended, WorldIn, Accepted, GoodTables, Trusted, HonestIndex, LedgerSound, EventsOf, Inv, Coherent,
           RaisesOnLoad, Follows, Next, CallsInOrder, LogIn, Disciplined, AlwaysSpeaks;
      var loaded := runtime.LoadState(runId);
      return loaded.value;
    }

    /** Run from READY, or from the point inside a model action where the previous process stopped. */
    method RunLoop() returns (r: Outcome<LoopResult>)
      requires Valid() && Kept(runId, runtime.Facts())
      modifies runtime.events`tables, runtime.events`identities, runtime.executor.store, runtime.executor.runner, adapter
      ensures Valid() && Kept(runId, runtime.Facts()) && Touches(runId, old(runtime.Facts()), runtime.Facts())
      ensures var w := old(World());
              if !old(runtime.Loads(runId)) then runtime.Facts() == old(runtime.Facts()) && r.Raised?
              else if (!w.state.status.Ready? && !InModelPhase(w.state.status)) || w.state.maxSteps.None? then
                runtime.Facts() == old(runtime.Facts()) && r == Raised(InvalidTransitionError)
              else
                && LoopEnded(runtime.config, runId, w, World(), r) && (!Silenced(World().log) ==> Keeps())
                && (r.Done? ==> TellsLog(runtime.config, runId, w, World(), r.value) && AccountsForAll(w, World(), r.value))
                && |World().log| <= |w.log| + 7 * TurnsLeft(w) + 1
    {
      hide Touches, Appended, WorldIn, Accepted, GoodTables, Trusted, HonestIndex, LedgerSound, EventsOf, Inv, Coherent,
           RaisesOnLoad, Follows, Next, CallsInOrder, LogIn, Disciplined, AlwaysSpeaks, LoopEnded, TurnsLeft, Silenced,
           Kept, Extends, TellsLog;
      ghost var w := World();
      TouchesSelf(runId, runtime.Facts());
      KeptLoads();
      var initial :- runtime.LoadState(runId);
      if !initial.status.Ready? && !initial.status.ModelPending? && !initial.status.ActionPending? {
        return Raised(InvalidTransitionError);
      }
      if initial.maxSteps.None? {
        return Raised(InvalidTransitionError);
      }
      r := ContinueLoop([], [], [], [], []);
      if r.Done? {
        EndState(runtime.config, runId, w, World(), r);
        ExtendsTells(runtime.config, runId, w, World(), LoopResult(PAUSED, w.state, [], [], [], [], []), r.value);
      }
      KeptAgain();
    }

    /** Verify a recovered effect from durable evidence, without calling the adapter, and go on. */
    method ResumeLoop() returns (r: Outcome<LoopResult>)
      requires Valid() && Kept(runId, runtime.Facts())
      modifies runtime.events`tables, runtime.events`identities, runtime.executor.store, runtime.executor.runner, adapter
      ensures Valid() && Kept(runId, runtime.Facts()) && Touches(runId, old(runtime.Facts()), runtime.Facts())
      ensures var w := old(World());
              if !old(runtime.Loads(runId)) then runtime.Facts() == old(runtime.Facts()) && r.Raised?
              else if !w.state.status.Verifying? then
                runtime.Facts() == old(runtime.Facts()) && r == Raised(InvalidTransitionError)
              else
                && LoopEnded(runtime.config, runId, w, World(), r) && (!Silenced(World().log) ==> Keeps())
                && (r.Done? ==> TellsLog(runtime.config, runId, w, World(), r.value) && AccountsForAll(w, World(), r.value))
    {
      hide Touches, Appended, WorldIn, Accepted, GoodTables, Trusted, HonestIndex, LedgerSound, EventsOf, Inv, Coherent,
           RaisesOnLoad, Follows, Next, CallsInOrder, LogIn, Disciplined, AlwaysSpeaks, TurnsLeft, Silenced, LoopEnded,
           AccountsForAll, TellsLog, Kept, CallInput, EvidenceIs, ActiveRequest, CallOf;
      TouchesSelf(runId, runtime.Facts());
      KeptLoads();
      ghost var w := World();
      var loaded := runtime.LoadModelToolRecovery(runId);
      var recovery :- loaded;
      if * {
        StoppedAt(runtime.config, runId, w);
        return Crashed;
      }
      r := VerifyAndContinue(recovery);
      KeptAgain();
    }

    /** The recovered turn is verified, and the loop goes on with the next one. */
    method VerifyAndContinue(recovery: ModelToolRecovery) returns (r: Outcome<LoopResult>)
      requires Valid() && Keeps() && World().state.status.Verifying? && EvidenceIs(runId, World(), recovery.receipt)
      requires World().state.activeStepId.Some?
      requires recovery.context == CallInput(runId, World(), World().state.activeStepId.value)
      requires recovery.action == CallOf(ActiveRequest(runId, World().log).value)
      modifies runtime.events`tables, runtime.events`identities, runtime.executor.store, runtime.executor.runner, adapter
      ensures Valid() && Touches(runId, old(runtime.Facts()), runtime.Facts())
      ensures LoopEnded(runtime.config, runId, old(World()), World(), r)
      ensures if Silenced(World().log) then !Accepted(runId, World().log) else Keeps()
      ensures r.Done? ==>
                && TellsLog(runtime.config, runId, old(World()), World(), r.value)
                && AccountsForAll(old(World()), World(), r.value)
    {
      hide Touches, Appended, WorldIn, Accepted, GoodTables, Trusted, HonestIndex, LedgerSound, EventsOf, Inv, Coherent,
           RaisesOnLoad, Follows, Next, CallsInOrder, LogIn, Disciplined, AlwaysSpeaks, TurnsLeft, Silenced, Accounted,
           CallInput, EvidenceIs, CallOf, ActiveRequest, Broke, Recounts, Extends, TellsLog, Found;
      ghost var a, w := runtime.Facts(), World();
      var verified := VerifyStep(recovery.context, recovery.action, recovery.receipt);
      ghost var b, v := runtime.Facts(), World();
      AlongOf(runtime.config, runId, w, v, Speaks(runtime.config.verify(recovery.context, recovery.action, recovery.receipt)));
      if !verified.Done? {
        BrokenLog(runtime.config, runId, w, v);
        return if verified.Raised? then Raised(verified.error) else Crashed;
      }
      var recorded := verified.value;
      PassedOne(recorded.1);
      FoundCall(runId, w, recovery.action, recovery.receipt);
      if recorded.0.status.Failed? {
        NothingNext(runtime.config, runId, v);
        r := Done(LoopResult(LoopOutcome.FAILED, recorded.0, [recovery.action], [], [recorded.1], [], [recovery.receipt]));
        VerdictTells(runtime.config, runId, w, v, recorded.1, recovery.receipt, r.value);
        return;
      }
      r := ContinueLoop([recovery.action], [], [recorded.1], [], [recovery.receipt]);
      if r.Done? {
        var start := LoopResult(PAUSED, v.state, [recovery.action], [], [recorded.1], [], [recovery.receipt]);
        AccountedFromRecovery(w, v, World(), start, r.value);
        RecoveryTells(runtime.config, runId, w, v, World(), recorded.1, recovery.receipt, start, r.value);
      }
      TouchesChain(runId, a, b, runtime.Facts());
      AlongAfterFollowing(runtime.config, runId, w, v, World());
    }

    /**
     * What a supervisor does after a restart: run_loop, recover and resume_loop, or resume_loop, by status.
     * Unless it is stopped in turn, it leaves exactly the log, state and effects of the uninterrupted run,
     * if and only if the stopped process had not been waiting for the adapter, for the authorization of a
     * stored request, or inside an effect that must not be tried twice.
     */
    method Restart() returns (r: Outcome<()>)
      requires Valid() && Kept(runId, runtime.Facts())
      modifies runtime.events`tables, runtime.events`identities, runtime.executor.store, runtime.executor.runner, adapter
      ensures Valid() && Kept(runId, runtime.Facts()) && Touches(runId, old(runtime.Facts()), runtime.Facts())
      ensures if !old(runtime.Loads(runId)) then runtime.Facts() == old(runtime.Facts()) && r.Raised?
              else
                && Restarted(runtime.config, runId, old(World()), World(), r) && !r.Raised?
                && (!Silenced(World().log) ==> Keeps())
                && (!TakenUp(old(World()).state.status) ==> runtime.Facts() == old(runtime.Facts()) && r == Done(()))
    {
      hide Touches, Appended, WorldIn, Accepted, GoodTables, Trusted, HonestIndex, LedgerSound, EventsOf, Inv, Coherent,
           RaisesOnLoad, Follows, Next, CallsInOrder, LogIn, Disciplined, AlwaysSpeaks, Kept, Restarted, Silenced;
      ghost var w := World();
      TouchesSelf(runId, runtime.Facts());
      KeptLoads();
      var state :- runtime.LoadState(runId);
      match state.status {
        case ToolReady =>
          r := RecoverAndResume();
        case ToolRunning =>
          r := RecoverAndResume();
        case Verifying =>
          var resumed := ResumeLoop();
          LoopIsRestart(runtime.config, runId, w, World(), resumed);
          return if resumed.Crashed? then Crashed else Done(());
        case Ready =>
          r := RunAgain();
        case ModelPending =>
          r := RunAgain();
        case ActionPending =>
          r := RunAgain();
        case _ =>
          NothingIsRestart(runtime.config, runId, w);
          return Done(());
      }
    }

    /**
     * A supervisor that restarts as often as it is stopped, up to a number of further attempts.  `found` is the run as the last restart found it: it
     * lies on the uninterrupted run from the first one, and unless that run was stuck there, the end is the same.
     */
    method KeepRestarting(attempts: nat) returns (r: Outcome<()>, made: nat, ghost found: World)
      requires Valid() && Kept(runId, runtime.Facts()) && runtime.Loads(runId)
      modifies runtime.events`tables, runtime.events`identities, runtime.executor.store, runtime.executor.runner, adapter
      ensures Valid() && Kept(runId, runtime.Facts()) && Touches(runId, old(runtime.Facts()), runtime.Facts())
      ensures 1 <= made <= attempts + 1 && (r.Crashed? && runtime.Loads(runId) ==> made == attempts + 1)
      ensures Follows(runtime.config, runId, old(World()), found) && !r.Raised?
      ensures Restarted(runtime.config, runId, found, World(), r)
      ensures Bounded(runId, old(World())) && Observed(old(World())) && r.Done? && !Silenced(World().log) ==>
                (World() == Finish(runtime.config, runId, old(World())) <==> !Stuck(runtime.config, runId, found))
    {
      hide Touches, Appended, WorldIn, Accepted, GoodTables, Trusted, HonestIndex, LedgerSound, EventsOf, Inv, Coherent,
           RaisesOnLoad, Follows, Next, CallsInOrder, LogIn, Disciplined, AlwaysSpeaks, Kept, Restarted, Silenced,
           Bounded, Finish, Stuck;
      ghost var a, w := runtime.Facts(), World();
      KeptLoads();
      InvIsCoherent(runId, w);
      FollowsSelf(runtime.config, runId, w);
      found := w;
      made := 1;
      r := Restart();
      while r.Crashed? && made <= attempts
        invariant 1 <= made <= attempts + 1
        invariant Valid() && Kept(runId, runtime.Facts()) && Touches(runId, a, runtime.Facts())
        invariant Follows(runtime.config, runId, w, found) && !r.Raised?
        invariant Restarted(runtime.config, runId, found, World(), r)
        invariant !Silenced(World().log) ==> Keeps()
        decreases attempts + 1 - made
      {
        ghost var b, v := runtime.Facts(), World();
        KeptLoads();
        RestartedSilence(runtime.config, runId, found, v, r);
        var loaded := runtime.LoadState(runId);
        if !loaded.Done? {
          break;
        }
        r := Restart();
        TouchesChain(runId, a, b, runtime.Facts());
        found := FoundNext(runtime.config, runId, w, found, v, World(), r);
        made := made + 1;
      }
      if Bounded(runId, w) && Observed(w) {
        FinishOfFollower(runtime.config, runId, w, found);
        EndOfRestart(runtime.config, runId, found, World(), r);
      }
    }

    /** READY, MODEL_PENDING and ACTION_PENDING are taken up by the loop, where the run has a budget. */
    method RunAgain() returns (r: Outcome<()>)
      requires Valid() && Kept(runId, runtime.Facts()) && Keeps()
      requires World().state.status.Ready? || InModelPhase(World().state.status)
      modifies runtime.events`tables, runtime.events`identities, runtime.executor.store, runtime.executor.runner, adapter
      ensures Valid() && Kept(runId, runtime.Facts()) && Touches(runId, old(runtime.Facts()), runtime.Facts())
      ensures Restarted(runtime.config, runId, old(World()), World(), r) && !r.Raised?
      ensures !Silenced(World().log) ==> Keeps()
    {
      hide Touches, Appended, WorldIn, Accepted, GoodTables, Trusted, HonestIndex, LedgerSound, EventsOf, Inv, Coherent,
           RaisesOnLoad, Follows, Next, CallsInOrder, LogIn, Disciplined, AlwaysSpeaks, Kept, Restarted, Silenced,
           LoopEnded, TurnsLeft, AccountsForAll;
      ghost var w := World();
      var state := CurrentState();
      var ran := RunLoop();
      if state.maxSteps.None? {
        NoBudgetIsRestart(runtime.config, runId, w);
        return Done(());
      }
      LoopIsRestart(runtime.config, runId, w, World(), ran);
      return if ran.Crashed? then Crashed else Done(());
    }

    /** TOOL_READY and TOOL_RUNNING are taken up by recover, and by resume_loop if the tool succeeded. */
    method RecoverAndResume() returns (r: Outcome<()>)
      requires Valid() && Kept(runId, runtime.Facts()) && Keeps()
      requires World().state.status.ToolReady? || World().state.status.ToolRunning?
      modifies runtime.events`tables, runtime.events`identities, runtime.executor.store, runtime.executor.runner, adapter
      ensures Valid() && Kept(runId, runtime.Facts()) && Touches(runId, old(runtime.Facts()), runtime.Facts())
      ensures Restarted(runtime.config, runId, old(World()), World(), r) && !r.Raised?
      ensures !Silenced(World().log) ==> Keeps()
    {
      hide Touches, Appended, WorldIn, Accepted, GoodTables, Trusted, HonestIndex, LedgerSound, EventsOf, Inv, Coherent,
           RaisesOnLoad, Follows, Next, CallsInOrder, LogIn, Disciplined, AlwaysSpeaks, Kept, Restarted, Silenced,
           LoopEnded, TurnsLeft, AccountsForAll, ActiveRequest, Reported, Halted, UnsafeOpenEffect;
      ghost var a, w := runtime.Facts(), World();
      RequestOfPhase(runId, w);
      var recovered := runtime.Recover(runId);
      ghost var b, v := runtime.Facts(), World();
      CallsStay(runId, adapter.calls, a, b);
      FollowsKeeps(runtime.config, runId, w, v);
      FollowersSpeak(runId, v);
      KeptAgain();
      RecoveryIsRestart(runtime.config, runId, w, v, recovered);
      if !recovered.Done? {
        return if recovered.Raised? then Done(()) else Crashed;
      }
      if !recovered.value.state.status.Verifying? {
        return Done(());
      }
      var resumed := ResumeLoop();
      TouchesChain(runId, a, b, runtime.Facts());
      ResumedIsRestart(runtime.config, runId, w, v, World(), resumed);
      return if resumed.Crashed? then Crashed else Done(());
    }
  }

  /** Statuses from which a supervisor takes a run up again; it leaves the others alone. */
  predicate TakenUp(status: Status) {
    status.Ready? || InModelPhase(status) || status.ToolReady? || status.ToolRunning? || status.Verifying?
  }

  /** The run as it is, or failed because nobody knows what the adapter answered. */
  ghost predicate Unanswered(cfg: Config, run: Text, w: World, x: World) {
    x == w || x == Appended(cfg, run, w, ModelActionFailed(Str(Literal(ADAPTER_OUTCOME_UNKNOWN))), [])
  }

  /** What a restart comes to. */
  ghost predicate Restarted(cfg: Config, run: Text, w: World, x: World, r: Outcome<()>) {
    && (if w.state.status.ModelPending? then Unanswered(cfg, run, w, x) && !Silenced(x.log) else WentAlong(cfg, run, w, x))
    && (Bounded(run, w) && Observed(w) && !r.Crashed? && !Silenced(x.log) ==>
          (x == Finish(cfg, run, w) <==> !Stuck(cfg, run, w)))
  }

  /** A loop that asked in its own process stops, raises or returns on the uninterrupted run. */
  lemma EndsHere(cfg: Config, run: Name, w: World, x: World, r: Outcome<LoopResult>)
    requires !w.state.status.ModelPending? && WentAlong(cfg, run, w, x)
    requires if Silenced(x.log) then !r.Done? else !r.Crashed? && Observed(w) ==> Next(cfg, run, x).None?
    requires r.Done? ==> r.value.state == x.state && Tells(r.value.outcome, x.state.status)
    ensures LoopEnded(cfg, run, w, x, r)
  {
    hide WentAlong, Silenced, Next, Tells;
  }

  /** A loop that finds an intent of an earlier process fails the run. */
  lemma EndsOnEntry(cfg: Config, run: Name, w: World, x: World, r: Outcome<LoopResult>)
    requires w.state.status.ModelPending? && !r.Raised?
    requires x == Appended(cfg, run, w, ModelActionFailed(Str(Literal(ADAPTER_OUTCOME_UNKNOWN))), [])
    requires r.Done? ==> r.value.state == x.state && r.value.outcome == LoopOutcome.FAILED && x.state.status.Failed?
    ensures LoopEnded(cfg, run, w, x, r)
  {
    hide WentAlong, Silenced, Next, Appended;
  }

  lemma BrokenLog(cfg: Config, run: Name, w: World, x: World)
    ensures Broke(cfg, run, w, x) ==> Silenced(x.log) && !Accepted(run, x.log)
  {
    hide Accepted, Silenced, AlwaysSpeaks, Finish;
  }

  lemma StoppedAt(cfg: Config, run: Name, w: World)
    requires Inv(run, w)
    ensures LoopEnded(cfg, run, w, w, Crashed)
  {
    hide Inv, Follows, Silenced, Broke;
    InvIsCoherent(run, w);
    FollowsSelf(cfg, run, w);
    AlongByFollowing(cfg, run, w, w);
  }

  lemma EndState(cfg: Config, run: Name, before: World, w: World, r: Outcome<LoopResult>)
    requires LoopEnded(cfg, run, before, w, r) && r.Done?
    ensures r.value.state == w.state
  {
    hide Follows, Next, Broke;
  }

  /** A loop that was not stopped, and did not have to fail on entry, is where the uninterrupted run ends. */
  lemma LoopArrives(cfg: Config, run: Name, before: World, w: World, r: Outcome<LoopResult>)
    requires Bounded(run, before) && Observed(before) && LoopEnded(cfg, run, before, w, r) && !Silenced(w.log)
    requires !r.Crashed? && !before.state.status.ModelPending?
    ensures w == Finish(cfg, run, before)
  {
    hide Follows, Next, Finish, Bounded, Silenced;
    FollowedToTheEnd(cfg, run, before, w);
  }

  lemma RestartedSilence(cfg: Config, run: Name, w: World, x: World, r: Outcome<()>)
    requires Restarted(cfg, run, w, x, r)
    ensures Silenced(x.log) ==> !Accepted(run, x.log)
  {
    hide Follows, Accepted, Silenced, Next, Finish, AlwaysSpeaks, Bounded, Stuck, Unanswered;
  }

  lemma EndOfRestart(cfg: Config, run: Name, w: World, x: World, r: Outcome<()>)
    requires Restarted(cfg, run, w, x, r) && Bounded(run, w) && Observed(w)
    ensures !r.Crashed? && !Silenced(x.log) ==> (x == Finish(cfg, run, w) <==> !Stuck(cfg, run, w))
  {
    hide WentAlong, Silenced, Finish, Bounded, Stuck, Unanswered;
  }

  /** A run that was stopped in a restart is found on the uninterrupted run, or as it was while it waits for an answer. */
  lemma FoundNext(cfg: Config, run: Name, w: World, found: World, v: World, x: World, r: Outcome<()>)
    returns (next: World)
    requires Follows(cfg, run, w, found) && Restarted(cfg, run, found, v, Crashed) && Inv(run, v) && !Silenced(v.log)
    requires Restarted(cfg, run, v, x, r) && (!TakenUp(v.state.status) ==> x == v && r == Done(()))
    ensures Follows(cfg, run, w, next) && Restarted(cfg, run, next, x, r)
  {
    hide Follows, Silenced, Next, Finish, AlwaysSpeaks, Bounded, Appended, Inv, Stuck, TakenUp;
    if found.state.status.ModelPending? {
      next := found;
      if v != found {
        hide WentAlong;
        FailureDecides(cfg, run, found, Literal(ADAPTER_OUTCOME_UNKNOWN));
        FailedIsLeft(v);
        if Bounded(run, found) {
          UnknownIsNotFinished(cfg, run, found, x);
          AskedIsStuck(cfg, run, found);
        }
      }
    } else {
      next := v;
      FollowsChain(cfg, run, w, found, v);
    }
  }

  lemma FailedIsLeft(w: World)
    requires w.state.status.Failed?
    ensures !TakenUp(w.state.status)
  {
  }

  lemma AskedIsStuck(cfg: Config, run: Name, w: World)
    requires w.state.status.ModelPending?
    ensures Stuck(cfg, run, w)
  {
    hide UnsafeOpenEffect;
  }

  /** Stopped as often as it may be, a run that is taken up again has still the same end before it. */
  lemma FinishOfFollower(cfg: Config, run: Name, w: World, v: World)
    requires Bounded(run, w) && Observed(w) && Follows(cfg, run, w, v)
    ensures Bounded(run, v) && Observed(v) && Finish(cfg, run, v) == Finish(cfg, run, w)
  {
    hide Inv, Finish, Next, Observed, EventsLeft;
  }

  /** The adapter's answer would have been the next event, so a failure for want of it is not. */
  lemma UnknownIsNotFinished(cfg: Config, run: Name, before: World, w: World)
    requires Bounded(run, before) && before.state.status.ModelPending?
    requires w == before
             || w == Appended(cfg, run, before, ModelActionFailed(Str(Literal(ADAPTER_OUTCOME_UNKNOWN))), [])
    ensures w != Finish(cfg, run, before)
  {
    hide Inv, Next, Appended, Follows, Finish;
    if w == before {
      StuckIsNotFinished(cfg, run, before);
    } else {
      AnswerIsNext(cfg, run, before);
      var v := Step(cfg, run, before);
      StepIsSafe(cfg, run, before);
      FinishIsReached(cfg, run, v);
      AlongStep(cfg, run, before);
      LastOfAppended(cfg, run, before, ModelActionFailed(Str(Literal(ADAPTER_OUTCOME_UNKNOWN))), []);
      assert Finish(cfg, run, before).log[|before.log|] == v.log[|before.log|];
    }
  }

  lemma AnswerIsNext(cfg: Config, run: Name, w: World)
    requires w.state.status.ModelPending?
    ensures Next(cfg, run, w).Some?
    ensures var v := Step(cfg, run, w);
            |v.log| == |w.log| + 1 && v.log[|w.log|].payload != ModelActionFailed(Str(Literal(ADAPTER_OUTCOME_UNKNOWN)))
  {
    hide ActiveRequest, Appended, KindOf, TurnInput;
    match cfg.adapter(TurnInput(run, w)) {
      case AdapterFails => LastOfAppended(cfg, run, w, ModelActionFailed(Str(Literal(ADAPTER_FAILED))), []);
      case Proposes(action) =>
        LastOfAppended(cfg, run, w,
                       ProposalPayload(InvocationName(run, StepName(w.state.turnIndex + 1)), w.state.turnIndex, action), []);
    }
  }

  lemma LoopIsRestart(cfg: Config, run: Name, w: World, x: World, r: Outcome<LoopResult>)
    requires Inv(run, w) && LoopEnded(cfg, run, w, x, r)
    requires w.state.status.Ready? || InModelPhase(w.state.status) || w.state.status.Verifying?
    ensures Restarted(cfg, run, w, x, if r.Crashed? then Crashed else Done(()))
  {
    hide Inv, Follows, Next, Finish, Bounded, Broke, Appended, WentAlong, Silenced;
    if w.state.status.ModelPending? {
      InvIsCoherent(run, w);
      FollowersSpeak(run, w);
      LastOfAppended(cfg, run, w, ModelActionFailed(Str(Literal(ADAPTER_OUTCOME_UNKNOWN))), []);
      NotSilenced(x.log, w.log);
      if Bounded(run, w) {
        UnknownIsNotFinished(cfg, run, w, x);
      }
    } else if Bounded(run, w) && Observed(w) && !r.Crashed? && !Silenced(x.log) {
      LoopArrives(cfg, run, w, x, r);
    }
  }

  lemma NotSilenced(log: seq<Event>, before: seq<Event>)
    requires !Silenced(before)
    ensures log == before ==> !Silenced(log)
    ensures (|log| == |before| + 1
             && log[|before|].payload == ModelActionFailed(Str(Literal(ADAPTER_OUTCOME_UNKNOWN)))) ==> !Silenced(log)
  {
  }

  lemma NothingIsRestart(cfg: Config, run: Name, w: World)
    requires Inv(run, w)
    requires !w.state.status.Ready? && !InModelPhase(w.state.status) && !w.state.status.Verifying?
    requires !w.state.status.ToolReady? && !w.state.status.ToolRunning?
    ensures Restarted(cfg, run, w, w, Done(()))
  {
    hide Inv, Follows, Next, Finish, Bounded, Broke, Silenced, UnsafeOpenEffect, WentAlong;
    InvIsCoherent(run, w);
    FollowsSelf(cfg, run, w);
    AlongByFollowing(cfg, run, w, w);
    UnsafeIsRunning(cfg, run, w);
    if Bounded(run, w) && Observed(w) {
      if w.state.status.ToolPending? {
        StuckIsNotFinished(cfg, run, w);
      } else {
        NothingNext(cfg, run, w);
        FollowedToTheEnd(cfg, run, w, w);
      }
    }
  }

  lemma NoBudgetIsRestart(cfg: Config, run: Name, w: World)
    requires Inv(run, w) && w.state.maxSteps.None?
    ensures Restarted(cfg, run, w, w, Done(()))
  {
    hide Inv, Follows, Finish, Broke, Silenced, WentAlong;
    InvIsCoherent(run, w);
    FollowsSelf(cfg, run, w);
    AlongByFollowing(cfg, run, w, w);
  }

  lemma UnsafeIsRunning(cfg: Config, run: Name, w: World)
    ensures UnsafeOpenEffect(cfg, run, w) ==> w.state.status.ToolRunning?
  {
    hide ActiveRequest;
  }

  /** Where recover raises, an unsafe effect stays open or the uninterrupted run ends; where it fails, that run ends too. */
  lemma RecoveryIsRestart(cfg: Config, run: Name, w: World, v: World, r: Outcome<ToolResult>)
    requires Inv(run, w) && (w.state.status.ToolReady? || w.state.status.ToolRunning?) && Follows(cfg, run, w, v)
    requires UnsafeOpenEffect(cfg, run, w) ==> r == Raised(UnsafeToolRetry)
    requires r.Raised? ==> Halted(cfg, run, v, r.error) && (r.error == UnsafeToolRetry ==> v == w)
    requires r.Done? ==>
               && ActiveRequest(run, w.log).Some? && r.value.receipt.Some?
               && Reported(v, ActiveRequest(run, w.log).value, r.value.state, r.value.receipt.value)
    ensures !r.Done? ==> Restarted(cfg, run, w, v, if r.Raised? then Done(()) else Crashed)
    ensures r.Done? ==>
              && r.value.state == v.state && !Stuck(cfg, run, w)
              && (!v.state.status.Verifying? ==> Restarted(cfg, run, w, v, Done(())))
  {
    hide Inv, Follows, Next, Finish, Bounded, Broke, Silenced, UnsafeOpenEffect, ActiveRequest, WentAlong;
    AlongByFollowing(cfg, run, w, v);
    if Bounded(run, w) && Observed(w) {
      if r.Raised? {
        if r.error == UnsafeToolRetry {
          StuckIsNotFinished(cfg, run, w);
        } else {
          FollowedToTheEnd(cfg, run, w, v);
        }
      } else if r.Done? && !v.state.status.Verifying? {
        NothingNext(cfg, run, v);
        FollowedToTheEnd(cfg, run, w, v);
      }
    }
  }

  lemma ResumedIsRestart(cfg: Config, run: Name, w: World, v: World, x: World, r: Outcome<LoopResult>)
    requires Follows(cfg, run, w, v) && !Stuck(cfg, run, w)
    requires !w.state.status.ModelPending? && v.state.status.Verifying? && LoopEnded(cfg, run, v, x, r)
    ensures Restarted(cfg, run, w, x, if r.Crashed? then Crashed else Done(()))
  {
    hide Inv, Follows, Next, Finish, Bounded, Broke, Silenced, UnsafeOpenEffect, WentAlong;
    AlongAfterFollowing(cfg, run, w, v, x);
    if Bounded(run, w) && Observed(w) && !r.Crashed? && !Silenced(x.log) {
      FinishOfFollower(cfg, run, w, v);
      LoopArrives(cfg, run, v, x, r);
    }
  }

  /** What a dispatched call adds to the evidence. */
  function AccountOf(action: ModelAction, report: CallReport): Account {
    Account([action], [report.result], match report.verification case None => [] case Some(v) => [v], [])
  }

  lemma VerifiedCallTold(cfg: Config, run: Name, w: World, v: World, x: World, action: ModelAction, result: ToolResult,
                         verdict: VerificationResult)
    requires Recounts(cfg, run, w, v, Account([action], [result], [], []))
    requires Recounts(cfg, run, v, x, Account([], [], [verdict], []))
    ensures Recounts(cfg, run, w, x, AccountOf(action, CallReport(result, Some(verdict))))
  {
    hide Recounts;
    var called, verified := Account([action], [result], [], []), Account([], [], [verdict], []);
    RecountsChain(cfg, run, w, v, x, called, verified);
    assert Joint(called, verified) == AccountOf(action, CallReport(result, Some(verdict)));
  }

  lemma NothingFirst(account: Account)
    ensures Joint(Nothing(), account) == account
  {
  }

  lemma AskTold(cfg: Config, run: Name, w: World)
    requires w.state.status.Ready?
    requires Appended(cfg, run, w, AskPayload(run, w.state.turnIndex, Observe(w.log)), []).state.status.ModelPending?
    ensures Recounts(cfg, run, w, Appended(cfg, run, w, AskPayload(run, w.state.turnIndex, Observe(w.log)), []), Nothing())
  {
    hide Recounts, Appended, Observe;
    UntoldEvent(cfg, run, w, AskPayload(run, w.state.turnIndex, Observe(w.log)), []);
  }

  lemma AnswerTold(cfg: Config, run: Name, w: World, pending: DurableModelAction, c: CompletionResult)
    requires PendingOf(run, w) == Done(pending) && pending.action.FinalAnswerAction?
    requires MayComplete(run, w, pending.context, pending.action.answer, c)
    requires var p := CompletionPayload(w.state.activeModelActionEventId, pending.context.stepId, pending.action.answer, c);
             !Appended(cfg, run, w, p, [Str(pending.action.answer), c.checks]).state.status.ActionPending?
    ensures var p := CompletionPayload(w.state.activeModelActionEventId, pending.context.stepId, pending.action.answer, c);
            Recounts(cfg, run, w, Appended(cfg, run, w, p, [Str(pending.action.answer), c.checks]),
                     Account([pending.action], [], [], [c]))
  {
    hide Recounts, Appended, CompletionPayload, PendingOf;
    CompletionTold(cfg, run, w, pending, w.state.activeModelActionEventId, pending.context.stepId, pending.action.answer, c);
  }

  function TurnOf(action: ModelAction, report: CallReport): TurnReport {
    match report.verification
    case None =>
      var outcome := if report.result.outcome == ToolResultKind.AWAITING_GATE then PAUSED else LoopOutcome.FAILED;
      TurnReport(AccountOf(action, report), Some(outcome))
    case Some(v) =>
      TurnReport(AccountOf(action, report), if v.passed then None else Some(LoopOutcome.FAILED))
  }

  /** Where the run has a budget, the log has grown within the allowance and the turns add up. */
  ghost predicate WithinAllowance(w: World, v: World) {
    w.state.maxSteps.Some? ==>
      && v.state.maxSteps.Some? && 0 <= TurnsLeft(v)
      && TurnsLeft(v) - TurnsLeft(w) == w.state.turnIndex - v.state.turnIndex
      && |v.log| <= |w.log| + 7 * TurnsLeft(w) + 1
  }

  lemma RoomToFail(run: Text, w: World)
    requires Inv(run, w)
    ensures w.state.maxSteps.Some? ==> 0 <= TurnsLeft(w)
  {
    hide Inv;
    if w.state.maxSteps.Some? {
      InvShape(run, w);
      BoundedHasRoom(run, w);
    }
  }

  lemma AlongOfTurn(cfg: Config, run: Name, w: World, v: World, x: World)
    requires Inv(run, w) && !w.state.status.New? && Follows(cfg, run, w, v)
    requires if Silenced(x.log) then Broke(cfg, run, v, x) else Follows(cfg, run, v, x)
    ensures WentAlong(cfg, run, w, x)
    ensures w.state.maxSteps.Some? ==> |x.log| <= |w.log| + 7 * TurnsLeft(w) + 1
    ensures !Silenced(x.log) ==>
              Follows(cfg, run, w, x) && WithinAllowance(w, x) && x.state.maxSteps == w.state.maxSteps
  {
    hide Inv, Follows, Broke, Silenced, TurnsLeft;
    AlongAfterFollowing(cfg, run, w, v, x);
    AlongParts(cfg, run, w, x);
    if !Silenced(x.log) {
      BudgetFollows(cfg, run, w, x);
    } else if w.state.maxSteps.Some? {
      IsBounded(run, w);
      BreakIsBounded(cfg, run, w, x);
    }
  }

  lemma TurnFailed(w: World, v: World)
    requires v.state.status.Failed? && v.state.turnIndex == w.state.turnIndex
    ensures TurnTaken(w, v, TurnReport(Nothing(), Some(LoopOutcome.FAILED)))
  {
  }

  lemma SameTurnTaken(w: World, v: World, x: World, report: TurnReport)
    requires v.state.turnIndex == w.state.turnIndex && TurnTaken(v, x, report)
    ensures TurnTaken(w, x, report)
  {
    hide Passed;
  }

  lemma CallIsTurn(w: World, x: World, action: ModelAction, report: CallReport)
    requires Dispatched(w, x, report)
    ensures TurnTaken(w, x, TurnOf(action, report))
  {
    if report.verification.Some? {
      PassedOne(report.verification.value);
    }
  }

  lemma IsBounded(run: Name, w: World)
    requires Inv(run, w) && w.state.maxSteps.Some?
    ensures Bounded(run, w)
  {
    hide Inv;
    InvShape(run, w);
  }

  /** The call that follows the intent of this process is for a new turn. */
  lemma AskedIsNew(cfg: Config, run: Name, calls: seq<AdapterCall>, a: Storage, b: Storage)
    requires CallsInOrder(calls, a) && Touches(run, a, b)
    requires Inv(run, WorldIn(a, run)) && WorldIn(a, run).state.status.Ready?
    requires var w := WorldIn(a, run);
             Persisted(cfg, run, a, b, AskPayload(run, w.state.turnIndex, Observe(w.log)), [], true)
    ensures CallsInOrder(calls, b)
    ensures CallsInOrder(calls + [AdapterCall(run, WorldIn(a, run).state.turnIndex)], b)
    ensures var w := WorldIn(a, run);
            WorldIn(b, run) == Appended(cfg, run, w, AskPayload(run, w.state.turnIndex, Observe(w.log)), [])
  {
    hide LogIn, CallsInOrder, Touches, Inv, Coherent, Accepted, StateOf, HonestIndex, KindOf, Appended, Disciplined,
         Observe;
    var w := WorldIn(a, run);
    InvIsCoherent(run, w);
    CoherentReplaysTo(run, w);
    CallsStay(run, calls, a, b);
    CallIsNew(run, calls, a, b, Stamp(cfg, run, |w.log|, AskPayload(run, w.state.turnIndex, Observe(w.log)), []));
  }

  /** What a persisted verdict comes to. */
  lemma VerdictIsPersisted(cfg: Config, run: Name, a: Storage, b: Storage, context: ModelInput, action: ModelAction,
                           receipt: ToolReceipt)
    requires Inv(run, WorldIn(a, run)) && WorldIn(a, run).state.status.Verifying?
    requires EvidenceIs(run, WorldIn(a, run), receipt) && WorldIn(a, run).state.activeStepId.Some?
    requires action == CallOf(ActiveRequest(run, WorldIn(a, run).log).value)
    requires var v := cfg.verify(context, action, receipt);
             Persisted(cfg, run, a, b, StepVerificationPayload(WorldIn(a, run).state.activeStepId.value, v),
                       VerificationRest(v), Speaks(v))
    ensures var v := cfg.verify(context, action, receipt); var w, x := WorldIn(a, run), WorldIn(b, run);
            var own := context == CallInput(run, w, w.state.activeStepId.value);
            if Speaks(v) then
              && Grows(run, w, x) && Inv(run, x) && x.state.turnIndex == w.state.turnIndex + Bit(v.passed)
              && (if v.passed then x.state.status.Ready? else x.state.status.Failed?)
              && (own ==> Follows(cfg, run, w, x))
              && Recounts(cfg, run, w, x, Account([], [], [v], []))
            else BreaksOff(cfg, run, w, x) && (own ==> Broke(cfg, run, w, x))
  {
    hide Recounts, Inv, Next, Accepted, Broke, BreaksOff, Follows, Grows, Appended,
         EvidenceIs, ActiveRequest, CallInput, Coherent, Disciplined,
         LogIn, HonestIndex, Observe, StateOf, AlwaysSpeaks;
    var w := WorldIn(a, run);
    VerificationStep(cfg, run, w, context, receipt);
    var v := cfg.verify(context, action, receipt);
    if Speaks(v) {
      GrowsKeeps(run, w, WorldIn(b, run));
      VerdictTold(cfg, run, w, w.state.activeStepId.value, v);
    } else {
      SilentVerifier(cfg, context, action, receipt);
      SilenceIsPersisted(cfg, run, w, WorldIn(b, run), VerificationRest(v));
    }
  }

  lemma SilentVerifier(cfg: Config, context: ModelInput, action: ModelAction, receipt: ToolReceipt)
    requires !Speaks(cfg.verify(context, action, receipt))
    ensures !AlwaysSpeaks(cfg)
  {
  }

  lemma SilenceIsPersisted(cfg: Config, run: Name, w: World, x: World, rest: seq<Val>)
    requires Inv(run, w) && w.state.status.Verifying? && !AlwaysSpeaks(cfg)
    requires x.log == w.log + [Stamp(cfg, run, |w.log|, VerificationFailed(Str(Raw(""))), rest)] && !Accepted(run, x.log)
    ensures BreaksOff(cfg, run, w, x) && (Next(cfg, run, w).None? ==> Broke(cfg, run, w, x))
  {
    hide Inv, Next, Accepted, AlwaysSpeaks, Broke, BreaksOff, KindOf;
    SilenceBreaks(cfg, run, w, x, Stamp(cfg, run, |w.log|, VerificationFailed(Str(Raw(""))), rest));
  }

  lemma PendingNames(run: Name, w: World, pending: DurableModelAction)
    requires PendingIs(run, w, pending) && pending.action.ToolCallAction?
    ensures pending.context.stepId == StepName(w.state.turnIndex + 1)
    ensures RequestFor(run, w, pending.eventId, pending.action) ==
            ToolRequest(run, pending.context.stepId, pending.action.toolCallId, pending.action.toolName,
                        pending.action.argumentsJson, Some(pending.eventId))
  {
    hide ActionOf, Observe;
  }

  lemma DecidedParts(cfg: Config, w: World, request: ToolRequest, result: ToolResult)
    requires Decided(cfg, w, request, result)
    ensures result.state == w.state
    ensures result.outcome == EXECUTED ==> result.receipt.Some? && Reported(w, request, w.state, result.receipt.value)
    ensures result.outcome != EXECUTED ==> result.receipt.None?
    ensures result.outcome == ToolResultKind.AWAITING_GATE ==>
              result.proposal.Some? && ReferenceIsActive(w.state, result.proposal.value.reference)
    ensures result.outcome == DENIED ==> w.state.status.Failed?
    ensures result.outcome == EXECUTED || result.outcome == ToolResultKind.AWAITING_GATE || result.outcome == DENIED
  {
    hide Reported, ReferenceIsActive, Shows, IsFresh, WaitsOn;
  }

  /** A submission for the pending call lies on the uninterrupted run. */
  lemma SubmittedFollows(cfg: Config, run: Name, w: World, after: World, request: ToolRequest, r: Outcome<ToolResult>)
    requires Inv(run, w) && Submitted(cfg, run, w, after, request, r)
    requires Follows(cfg, run, w, Appended(cfg, run, w, RequestPayload(request), []))
    ensures Follows(cfg, run, w, after) && Inv(run, after) && !Silenced(after.log)
    ensures SameTurn(w, after) && InCall(Appended(cfg, run, w, RequestPayload(request), []), after)
    ensures (r.Raised? ==> Next(cfg, run, after).None?)
    ensures r.Done? ==> Decided(cfg, after, request, r.value)
  {
    hide Inv, Follows, Appended, RequestPayload, SameTurn, InCall, Decided, Next, UnsafeOpenEffect, Silenced, Coherent;
    FollowsChain(cfg, run, w, Appended(cfg, run, w, RequestPayload(request), []), after);
    FollowsKeeps(cfg, run, w, after);
    FollowersSpeak(run, after);
  }

  /** An action that waited on the log's own observation is verified on the input that the log rebuilds. */
  lemma OwnCallInput(run: Name, w: World, v: World, pending: DurableModelAction)
    requires SameTurn(w, v) && PendingIs(run, w, pending) && w.state.status.ActionPending?
    ensures Observed(w) ==> pending.context == CallInput(run, v, pending.context.stepId)
  {
    hide Observe, ActionOf, Observed;
    PendingInput(run, w, pending);
  }

  lemma ObservedAlong(cfg: Config, run: Text, w: World, v: World)
    requires Follows(cfg, run, w, v)
    ensures Observed(w) ==> Observed(v)
  {
    hide Grows, Along, Bounded, Observed;
    FollowsKeeps(cfg, run, w, v);
  }

  lemma GrowsKeeps(run: Text, w: World, v: World)
    requires Grows(run, w, v)
    ensures Coherent(run, v) && (Inv(run, w) ==> Inv(run, v))
  {
    hide Coherent, Inv, Bounded, Observed, EventsLeft;
  }

  /** The verdict on a call that this process dispatched, as seen from where its action waited. */
  lemma VerdictFollows(cfg: Config, run: Name, w: World, v: World, x: World, speaks: bool)
    requires Follows(cfg, run, w, v)
    requires if speaks then Grows(run, v, x) && (Observed(w) ==> Follows(cfg, run, v, x))
             else BreaksOff(cfg, run, v, x) && (Observed(w) ==> Broke(cfg, run, v, x))
    ensures if Silenced(x.log) then !speaks && Broke(cfg, run, w, x) else speaks && Follows(cfg, run, w, x)
  {
    hide Follows, Grows, Silenced, Broke, Observed, Accepted, AlwaysSpeaks, Bounded;
    if speaks {
      FollowsByGrowth(cfg, run, w, v, x);
      FollowersSpeakOf(cfg, run, w, x);
    } else {
      BreaksChain(cfg, run, w, v, x);
    }
  }

  lemma FollowersSpeakOf(cfg: Config, run: Name, w: World, x: World)
    requires Follows(cfg, run, w, x)
    ensures !Silenced(x.log)
  {
    hide Follows, Silenced;
    FollowsKeeps(cfg, run, w, x);
    FollowersSpeak(run, x);
  }

  lemma AlongOf(cfg: Config, run: Name, w: World, x: World, speaks: bool)
    requires if speaks then Follows(cfg, run, w, x) else Broke(cfg, run, w, x)
    ensures WentAlong(cfg, run, w, x) && (Silenced(x.log) <==> !speaks)
  {
    hide Follows, Silenced;
    if speaks {
      AlongByFollowing(cfg, run, w, x);
    }
  }

  lemma AlongParts(cfg: Config, run: Name, w: World, x: World)
    requires WentAlong(cfg, run, w, x)
    ensures if Silenced(x.log) then Broke(cfg, run, w, x) else Follows(cfg, run, w, x)
  {
    hide Follows, Broke, Silenced;
  }
}
