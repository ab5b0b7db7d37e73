/**
 * Where calls outside the loop go wrong: `_append` persists before it validates
 * (authorized_tool_runtime.py:838-855), and some operations append without looking at everything first.  Each
 * operation's contract says exactly when; here are the inputs, and what becomes of the log.
 */
module Unguarded {
  import opened Values
  import opened Events
  import opened RunStates
  import opened Reducer
  import opened Replay
  import opened Lifecycle
  import opened Protocol
  import opened RunInvariant
  import opened Continuation
  import opened Guards
  import opened Storages
  import opened OperationSteps
  import opened ConcreteRuns

  /** A log that does not replay is lost: nothing appended to it can repair it, and the error stays the same. */
  lemma PoisonIsPermanent(run: Text, log: seq<Event>, more: seq<Event>)
    requires ReplayRun(run, log).Err?
    ensures ReplayRun(run, log + more) == ReplayRun(run, log)
  {
    FoldConcat(Initial(run), log, more);
  }

  /** The log of the world with one more stamped event. */
  function LogWith(cfg: Config, run: Text, w: World, p: Payload, rest: seq<Val>): seq<Event> {
    w.log + [Stamp(cfg, run, |w.log|, p, rest)]
  }

  lemma UntakenPoisons(cfg: Config, run: Text, w: World, p: Payload, rest: seq<Val>)
    requires Coherent(run, w) && !CanTake(cfg, run, w, p, rest)
    ensures !Accepted(run, LogWith(cfg, run, w, p, rest))
  {
    hide Transition, KindOf, Coherent;
    StampedReduces(cfg, run, w, p, rest);
  }

  /** A run that was created and not started: submitting to it ends its life. */
  lemma SubmitBeforeStartPoisons(cfg: Config, run: Name, r: ToolRequest, maxSteps: Positive)
    ensures var w := CreatedRun(cfg, run, maxSteps);
            Accepted(run, w.log) && !Accepted(run, LogWith(cfg, run, w, RequestPayload(r), []))
  {
    hide Accepted, RequestPayload, CreatedRun, CanTake, TurnFacts, EffectFacts;
    CreatedIsKept(cfg, run, maxSteps);
    RequestDecides(cfg, run, CreatedRun(cfg, run, maxSteps), r);
    UntakenPoisons(cfg, run, CreatedRun(cfg, run, maxSteps), RequestPayload(r), []);
  }

  /** A run that awaits its verification: a failure without a reason ends its life, for the run or for the step. */
  lemma SilentVerdictPoisons(cfg: Config, run: Name, w: World, v: VerificationResult)
    requires Coherent(run, w) && w.state.status.Verifying? && !Speaks(v)
    ensures !Accepted(run, LogWith(cfg, run, w, RunVerificationPayload(v), VerificationRest(v)))
    ensures w.state.activeStepId.Some? ==>
              !Accepted(run, LogWith(cfg, run, w, StepVerificationPayload(w.state.activeStepId.value, v), VerificationRest(v)))
  {
    hide Accepted, StateOf, Coherent, CanTake;
    RunVerificationDecides(cfg, run, w, v);
    UntakenPoisons(cfg, run, w, RunVerificationPayload(v), VerificationRest(v));
  }

  // ----- A spent budget -----

  /** A run of one step whose step was spent on an answer that was rejected. */
  function SpentRun(cfg: Config, run: Text, answer: Name, c: CompletionResult): World {
    Appended(cfg, run, StartedRun(cfg, run, 1), CompletionPayload(None, StepName(1), answer, c), [Str(answer), c.checks])
  }

  lemma SpentIsReady(cfg: Config, run: Name, answer: Name, c: CompletionResult)
    requires !c.accepted
    ensures var w := SpentRun(cfg, run, answer, c);
            Inv(run, w) && w.state.status.Ready? && w.state.turnIndex == 1 && w.state.maxSteps == Some(1)
  {
    hide Inv, StartedRun, CanTake, Appended, CompletionPayload, Disciplined;
    var w := StartedRun(cfg, run, 1);
    StartedIsReady(cfg, run, 1);
    InvIsCoherent(run, w);
    NoActionInReady(run, w);
    CompletionDecides(cfg, run, w, answer, c, [Str(answer), c.checks]);
    CompletionMoves(cfg, run, w, None, StepName(1), answer, c, [Str(answer), c.checks]);
    AppendKeepsInvariant(cfg, run, w, CompletionPayload(None, StepName(1), answer, c), [Str(answer), c.checks]);
    BudgetOfCompletion(cfg, run, w, answer, c);
  }

  lemma NoActionInReady(run: Text, w: World)
    requires Coherent(run, w) && w.state.status.Ready?
    ensures w.state.activeModelActionEventId.None?
  {
    hide Coherent, GateShape;
    CoherentShape(run, w);
  }

  lemma BudgetOfCompletion(cfg: Config, run: Text, w: World, answer: Name, c: CompletionResult)
    ensures Appended(cfg, run, w, CompletionPayload(None, StepName(1), answer, c), [Str(answer), c.checks]).state.maxSteps
            == w.state.maxSteps
  {
    hide KindOf;
  }

  /**
   * With the budget spent, the guards of `begin_model_action` and `record_completion` still pass in READY, and the
   * log that they leave does not replay.
   */
  lemma SpentBudgetPoisons(cfg: Config, run: Name, answer: Name, first: CompletionResult, second: CompletionResult)
    requires !first.accepted && second.answerSha256 == AnswerHash(answer)
    ensures var w := SpentRun(cfg, run, answer, first); var context := TurnInput(run, w);
            && Accepted(run, w.log)
            && MayBegin(w.state, context) && MayComplete(run, w, context, answer, second)
            && !Accepted(run, LogWith(cfg, run, w, AskPayload(run, 1, context.observationJson), []))
            && !Accepted(run, LogWith(cfg, run, w, CompletionPayload(None, StepName(2), answer, second),
                                      [Str(answer), second.checks]))
  {
    hide Accepted, SpentRun, CanTake, Observe, TurnFacts, EffectFacts, CompletionPayload, AskPayload, PendingOf,
         Disciplined;
    var w := SpentRun(cfg, run, answer, first);
    SpentIsReady(cfg, run, answer, first);
    NoActionInReady(run, w);
    AskDecides(cfg, run, w, Observe(w.log));
    UntakenPoisons(cfg, run, w, AskPayload(run, 1, Observe(w.log)), []);
    CompletionDecides(cfg, run, w, answer, second, [Str(answer), second.checks]);
    UntakenPoisons(cfg, run, w, CompletionPayload(None, StepName(2), answer, second), [Str(answer), second.checks]);
  }

  /** A request without a step is taken although the budget is spent; one with a step is not. */
  lemma StepLessRequestIgnoresBudget(cfg: Config, run: Name, answer: Name, c: CompletionResult, step: Name, call: Name,
                                     tool: Name, arguments: Name)
    requires !c.accepted
    ensures var w := SpentRun(cfg, run, answer, c);
            && Accepted(run, w.log) && !HasBudget(w.state)
            && Accepted(run, LogWith(cfg, run, w, ToolRequested(Missing, Missing, Str(call), Str(tool), Str(arguments)), []))
            && !Accepted(run, LogWith(cfg, run, w, ToolRequested(Missing, Str(step), Str(call), Str(tool), Str(arguments)), []))
  {
    hide Accepted, SpentRun, TurnFacts, EffectFacts, KindOf, StateOf;
    var w := SpentRun(cfg, run, answer, c);
    SpentIsReady(cfg, run, answer, c);
    var p := ToolRequested(Missing, Missing, Str(call), Str(tool), Str(arguments));
    CoherentAppend(cfg, run, w, p, []);
    UntakenPoisons(cfg, run, w, ToolRequested(Missing, Str(step), Str(call), Str(tool), Str(arguments)), []);
  }
}
