/** What the loop reports, read off the log (src/agent_runtime_lab/fake_agent.py:342-487). */
module LoopEvidence {
  import opened Values
  import opened Events
  import opened Reducer
  import opened Replay
  import opened ToolEffects
  import opened Protocol
  import opened RunInvariant
  import opened Continuation
  import opened Guards
  import opened Storages
  import opened OperationSteps

  // ----- What events carry -----

  function ReadAction(e: Event): Option<ModelAction> {
    ActionOf(e.payload)
  }

  function ReadRequest(e: Event): Option<ToolRequest> {
    RequestOf(e.runId, e.payload)
  }

  /** The verdict on a step, as its event holds it. */
  function ReadVerdict(e: Event): Option<VerificationResult> {
    match e.payload
    case VerificationSucceeded(scope, _, checks, Str(summary)) =>
      if scope == Str(Literal(STEP_SCOPE)) then Some(VerificationResult(true, checks, summary)) else None
    case VerificationFailed(Str(reason)) =>
      if |e.rest| == 1 then Some(VerificationResult(false, e.rest[0], reason)) else None
    case _ => None
  }

  /** The decision about an answer, as its event holds it. */
  function ReadCompletion(e: Event): Option<CompletionResult> {
    match e.payload
    case CompletionAccepted(_, _, Str(hash), Str(summary)) =>
      if |e.rest| == 2 && summary != Raw("") then Some(CompletionResult(true, hash, e.rest[1], summary)) else None
    case CompletionRejected(_, _, Str(hash), Str(summary)) =>
      if |e.rest| == 2 && summary != Raw("") then Some(CompletionResult(false, hash, e.rest[1], summary)) else None
    case _ => None
  }

  /** What the events carry, in the order of the log. */
  function Carried<T>(events: seq<Event>, read: Event -> Option<T>): seq<T> {
    if events == [] then []
    else
      var n := |events| - 1;
      Carried(events[..n], read) + match read(events[n]) case None => [] case Some(x) => [x]
  }

  lemma {:induction false} CarriedConcat<T>(a: seq<Event>, b: seq<Event>, read: Event -> Option<T>)
    ensures Carried(a + b, read) == Carried(a, read) + Carried(b, read)
  {
    if b == [] {
      assert a + b == a;
    } else {
      var n := |b| - 1;
      CarriedConcat(a, b[..n], read);
      assert (a + b)[..|a| + n] == a + b[..n];
    }
  }

  lemma {:induction false} CarriesNothing<T>(events: seq<Event>, read: Event -> Option<T>)
    requires forall i :: 0 <= i < |events| ==> read(events[i]).None?
    ensures Carried(events, read) == []
  {
    if events != [] {
      CarriesNothing(events[..|events| - 1], read);
    }
  }

  lemma CarriesOne<T>(e: Event, read: Event -> Option<T>)
    ensures Carried([e], read) == match read(e) case None => [] case Some(x) => [x]
  {
    assert [e][..0] == [];
  }

  lemma VerdictReadsBack(cfg: Config, run: Text, n: nat, step: Text, v: VerificationResult)
    ensures ReadVerdict(Stamp(cfg, run, n, StepVerificationPayload(step, v), VerificationRest(v))) == Some(v)
  {
  }

  lemma CompletionReadsBack(cfg: Config, run: Text, n: nat, actionEvent: Option<Text>, step: Text, answer: Name,
                            c: CompletionResult)
    requires c.answerSha256 == AnswerHash(answer)
    ensures ReadCompletion(Stamp(cfg, run, n, CompletionPayload(actionEvent, step, answer, c), [Str(answer), c.checks])) == Some(c)
  {
  }

  // ----- What a tool result tells -----

  /**
   * The result reports the decision about the request, the state that the call came to, and either the proposal that
   * waits or the stored receipt.
   */
  ghost predicate ResultTells(cfg: Config, run: Text, w: World, request: ToolRequest, result: ToolResult) {
    && result.authorization == Some(cfg.authorize(request)) && result.evaluation.None? && result.attempt.None?
    && result.state.nextSequence <= |w.log| && result.state == StateOf(run, w.log[..result.state.nextSequence])
    && match cfg.authorize(request)
       case Deny(reason) =>
         && result.outcome == DENIED && result.proposal.None? && result.receipt.None?
         && result.state.status.Failed? && result.state.failureReason == Some(reason)
       case Escalate(mode, paths, reasons) =>
         && result.outcome == AWAITING_GATE && result.receipt.None?
         && result.proposal.Some? && Shows(result.proposal.value, request, mode, paths, reasons, 1)
         && ReferenceIsActive(result.state, result.proposal.value.reference)
       case Allow(_) =>
         && result.outcome == EXECUTED && result.proposal.None? && result.receipt.Some?
         && EffectName(run, request.toolCallId) in w.receipts
         && w.receipts[EffectName(run, request.toolCallId)] == result.receipt.value
         && (if result.receipt.value.outcome == SUCCEEDED then result.state.status.Verifying?
             else result.state.status.Failed?)
  }

  ghost predicate ResultsTell(cfg: Config, run: Text, w: World, requests: seq<ToolRequest>, results: seq<ToolResult>) {
    |results| == |requests| && forall k :: 0 <= k < |requests| ==> ResultTells(cfg, run, w, requests[k], results[k])
  }

  /** Logs grow, and stored receipts are never replaced. */
  ghost predicate Later(w: World, v: World) {
    && w.log <= v.log
    && forall id :: id in w.receipts ==> id in v.receipts && v.receipts[id] == w.receipts[id]
  }

  lemma ResultStands(cfg: Config, run: Text, w: World, v: World, request: ToolRequest, result: ToolResult)
    requires ResultTells(cfg, run, w, request, result) && Later(w, v)
    ensures ResultTells(cfg, run, v, request, result)
  {
    hide StateOf, Shows, ReferenceIsActive;
    assert v.log[..result.state.nextSequence] == w.log[..result.state.nextSequence];
  }

  lemma DecidedTells(cfg: Config, run: Text, w: World, request: ToolRequest, result: ToolResult)
    requires Coherent(run, w) && request.runId == run && Decided(cfg, w, request, result)
    ensures ResultTells(cfg, run, w, request, result)
  {
    hide Coherent, StateOf, Shows, ReferenceIsActive, IsFresh, WaitsOn, ActiveRequest;
    CoherentReplaysTo(run, w);
    assert w.log[..|w.log|] == w.log;
  }

  // ----- What a stretch of the loop tells -----

  /** What a stretch of the loop adds to the evidence. */
  datatype Account = Account(actions: seq<ModelAction>, toolResults: seq<ToolResult>,
                             verifications: seq<VerificationResult>, completions: seq<CompletionResult>)

  function Nothing(): Account {
    Account([], [], [], [])
  }

  function Joint(x: Account, y: Account): Account {
    Account(x.actions + y.actions, x.toolResults + y.toolResults, x.verifications + y.verifications,
            x.completions + y.completions)
  }

  /** The action that waits to be dispatched. */
  ghost function Waiting(run: Text, w: World): seq<ModelAction> {
    match PendingOf(run, w)
    case Done(pending) => [pending.action]
    case _ => []
  }

  lemma NothingWaits(run: Text, w: World)
    requires !w.state.status.ActionPending?
    ensures Waiting(run, w) == []
  {
  }

  /** The events carry what the account says, in the same order; `waited` came before them, `waiting` is still to come. */
  ghost predicate CarriesAccount(events: seq<Event>, waited: seq<ModelAction>, waiting: seq<ModelAction>, account: Account) {
    && account.actions + waiting == waited + Carried(events, ReadAction)
    && account.verifications == Carried(events, ReadVerdict)
    && account.completions == Carried(events, ReadCompletion)
  }

  /**
   * From w to v the loop dispatched the action that waited and then those that were proposed, in order, but for one
   * that waits still; its verdicts, decisions and tool results are those of the events in between.
   */
  ghost predicate Recounts(cfg: Config, run: Text, w: World, v: World, account: Account) {
    && Later(w, v)
    && CarriesAccount(v.log[|w.log|..], Waiting(run, w), Waiting(run, v), account)
    && ResultsTell(cfg, run, v, Carried(v.log[|w.log|..], ReadRequest), account.toolResults)
  }

  lemma RecountsSelf(cfg: Config, run: Text, w: World)
    ensures Recounts(cfg, run, w, w, Nothing())
  {
    hide Waiting;
    assert w.log[|w.log|..] == [];
  }

  lemma AccountsConcat(a: seq<Event>, b: seq<Event>, waited: seq<ModelAction>, between: seq<ModelAction>,
                       waiting: seq<ModelAction>, x: Account, y: Account)
    requires CarriesAccount(a, waited, between, x) && CarriesAccount(b, between, waiting, y)
    ensures CarriesAccount(a + b, waited, waiting, Joint(x, y))
  {
    hide Carried;
    CarriedConcat(a, b, ReadAction);
    CarriedConcat(a, b, ReadVerdict);
    CarriedConcat(a, b, ReadCompletion);
    calc {
      (x.actions + y.actions) + waiting;
      x.actions + (y.actions + waiting);
      x.actions + (between + Carried(b, ReadAction));
      (x.actions + between) + Carried(b, ReadAction);
    }
  }

  lemma ResultsConcat(cfg: Config, run: Text, w: World, v: World, a: seq<Event>, b: seq<Event>, x: seq<ToolResult>,
                      y: seq<ToolResult>)
    requires Later(w, v)
    requires ResultsTell(cfg, run, w, Carried(a, ReadRequest), x) && ResultsTell(cfg, run, v, Carried(b, ReadRequest), y)
    ensures ResultsTell(cfg, run, v, Carried(a + b, ReadRequest), x + y)
  {
    hide ResultTells, Carried, Later;
    CarriedConcat(a, b, ReadRequest);
    var requests := Carried(a, ReadRequest);
    forall k | 0 <= k < |x| ensures ResultTells(cfg, run, v, requests[k], x[k]) {
      ResultStands(cfg, run, w, v, requests[k], x[k]);
    }
  }

  lemma RecountsChain(cfg: Config, run: Text, a: World, b: World, c: World, x: Account, y: Account)
    requires Recounts(cfg, run, a, b, x) && Recounts(cfg, run, b, c, y)
    ensures Recounts(cfg, run, a, c, Joint(x, y))
  {
    hide CarriesAccount, ResultsTell, Waiting, Carried;
    var first, second := b.log[|a.log|..], c.log[|b.log|..];
    assert c.log[|a.log|..] == first + second;
    AccountsConcat(first, second, Waiting(run, a), Waiting(run, b), Waiting(run, c), x, y);
    ResultsConcat(cfg, run, b, c, first, second, x.toolResults, y.toolResults);
  }

  /** One event that joins the log. */
  lemma RecountsEvent(cfg: Config, run: Text, w: World, v: World, e: Event, account: Account)
    requires v.log == w.log + [e] && Later(w, v) && ReadRequest(e).None? && account.toolResults == []
    requires account.actions + Waiting(run, v) ==
             Waiting(run, w) + match ReadAction(e) case None => [] case Some(action) => [action]
    requires account.verifications == match ReadVerdict(e) case None => [] case Some(verdict) => [verdict]
    requires account.completions == match ReadCompletion(e) case None => [] case Some(completion) => [completion]
    ensures Recounts(cfg, run, w, v, account)
  {
    hide Carried, Waiting, ReadAction, ReadVerdict, ReadCompletion, ReadRequest;
    assert v.log[|w.log|..] == [e];
    CarriesOne(e, ReadAction);
    CarriesOne(e, ReadVerdict);
    CarriesOne(e, ReadCompletion);
    CarriesOne(e, ReadRequest);
  }

  /** Events that the evidence does not tell of. */
  predicate IsUntold(p: Payload) {
    || IsCallEvent(p) || p.ModelActionRequested? || p.ModelActionFailed? || p.StepBudgetExhausted?
  }

  lemma UntoldStretch(cfg: Config, run: Text, w: World, v: World)
    requires Later(w, v) && forall i :: |w.log| <= i < |v.log| ==> IsUntold(v.log[i].payload)
    requires !w.state.status.ActionPending? && !v.state.status.ActionPending?
    ensures Recounts(cfg, run, w, v, Nothing())
  {
    hide IsUntold;
    NothingWaits(run, w);
    NothingWaits(run, v);
    var added := v.log[|w.log|..];
    forall i | 0 <= i < |added|
      ensures ReadAction(added[i]).None? && ReadVerdict(added[i]).None? && ReadCompletion(added[i]).None?
              && ReadRequest(added[i]).None?
    {
      assert added[i] == v.log[|w.log| + i];
      UntoldIsUnread(added[i]);
    }
    CarriesNothing(added, ReadAction);
    CarriesNothing(added, ReadVerdict);
    CarriesNothing(added, ReadCompletion);
    CarriesNothing(added, ReadRequest);
  }

  lemma UntoldIsUnread(e: Event)
    requires IsUntold(e.payload)
    ensures ReadAction(e).None? && ReadVerdict(e).None? && ReadCompletion(e).None? && ReadRequest(e).None?
  {
  }

  // ----- The steps of the loop -----

  lemma LaterByTouch(run: Text, a: Storage, b: Storage)
    requires Touches(run, a, b)
    ensures Later(WorldIn(a, run), WorldIn(b, run))
  {
    hide LogIn, OnlyOwnEffects, StateOf;
  }

  /** An event that the evidence does not tell of. */
  lemma UntoldEvent(cfg: Config, run: Text, w: World, p: Payload, rest: seq<Val>)
    requires IsUntold(p) && !w.state.status.ActionPending? && !Appended(cfg, run, w, p, rest).state.status.ActionPending?
    ensures Recounts(cfg, run, w, Appended(cfg, run, w, p, rest), Nothing())
  {
    hide Appended, IsUntold, Recounts;
    LastOfAppended(cfg, run, w, p, rest);
    UntoldStretch(cfg, run, w, Appended(cfg, run, w, p, rest));
  }

  lemma BudgetEndTold(cfg: Config, run: Text, w: World)
    requires Coherent(run, w) && w.state.status.Ready? && !HasBudget(w.state)
    ensures Next(cfg, run, w).Some? && Recounts(cfg, run, w, Step(cfg, run, w), Nothing())
  {
    hide Coherent, Acceptable, Appended, Next, Recounts;
    BudgetEndIsAcceptable(cfg, run, w);
    UntoldEvent(cfg, run, w, StepBudgetExhausted(Int(w.state.maxSteps.value), Int(w.state.turnIndex)), []);
  }

  /** A proposed action waits. */
  lemma ProposalTold(cfg: Config, run: Text, w: World, invocation: Text, turn: nat, action: ModelAction)
    requires w.state.status.ModelPending?
    requires var v := Appended(cfg, run, w, ProposalPayload(invocation, turn, action), []);
             Inv(run, v) && v.state.status.ActionPending?
    ensures Recounts(cfg, run, w, Appended(cfg, run, w, ProposalPayload(invocation, turn, action), []), Nothing())
    ensures var v := Appended(cfg, run, w, ProposalPayload(invocation, turn, action), []);
            PendingOf(run, v).Done? && PendingOf(run, v).value.action == action
  {
    hide Appended, Inv, Recounts, PendingOf, ActionOf, ProposalPayload;
    var p := ProposalPayload(invocation, turn, action);
    var v := Appended(cfg, run, w, p, []);
    LastOfAppended(cfg, run, w, p, []);
    PendingIsExact(run, v);
    ProposalReadsBack(invocation, turn, action);
    NothingWaits(run, w);
    ActionOnly(Stamp(cfg, run, |w.log|, p, []));
    RecountsEvent(cfg, run, w, v, Stamp(cfg, run, |w.log|, p, []), Nothing());
  }

  lemma ActionOnly(e: Event)
    requires ActionOf(e.payload).Some?
    ensures ReadVerdict(e).None? && ReadCompletion(e).None? && ReadRequest(e).None?
  {
  }

  /** The waiting answer is judged. */
  lemma CompletionTold(cfg: Config, run: Text, w: World, pending: DurableModelAction, actionEvent: Option<Text>, step: Text,
                       answer: Name, c: CompletionResult)
    requires PendingOf(run, w) == Done(pending) && c.answerSha256 == AnswerHash(answer)
    requires var v := Appended(cfg, run, w, CompletionPayload(actionEvent, step, answer, c), [Str(answer), c.checks]);
             !v.state.status.ActionPending?
    ensures Recounts(cfg, run, w,
                     Appended(cfg, run, w, CompletionPayload(actionEvent, step, answer, c), [Str(answer), c.checks]),
                     Account([pending.action], [], [], [c]))
  {
    hide Appended, Recounts, PendingOf, CompletionPayload;
    var p, rest := CompletionPayload(actionEvent, step, answer, c), [Str(answer), c.checks];
    LastOfAppended(cfg, run, w, p, rest);
    NothingWaits(run, Appended(cfg, run, w, p, rest));
    CompletionReadsBack(cfg, run, |w.log|, actionEvent, step, answer, c);
    DecisionOnly(Stamp(cfg, run, |w.log|, p, rest));
    RecountsEvent(cfg, run, w, Appended(cfg, run, w, p, rest), Stamp(cfg, run, |w.log|, p, rest),
                  Account([pending.action], [], [], [c]));
  }

  lemma DecisionOnly(e: Event)
    requires ReadCompletion(e).Some?
    ensures ReadAction(e).None? && ReadVerdict(e).None? && ReadRequest(e).None?
  {
  }

  /** The step is verified. */
  lemma VerdictTold(cfg: Config, run: Text, w: World, step: Text, v: VerificationResult)
    requires w.state.status.Verifying?
    requires !Appended(cfg, run, w, StepVerificationPayload(step, v), VerificationRest(v)).state.status.ActionPending?
    ensures Recounts(cfg, run, w, Appended(cfg, run, w, StepVerificationPayload(step, v), VerificationRest(v)),
                     Account([], [], [v], []))
  {
    hide Appended, Recounts, StepVerificationPayload;
    var p, rest := StepVerificationPayload(step, v), VerificationRest(v);
    LastOfAppended(cfg, run, w, p, rest);
    NothingWaits(run, w);
    NothingWaits(run, Appended(cfg, run, w, p, rest));
    VerdictReadsBack(cfg, run, |w.log|, step, v);
    VerdictOnly(Stamp(cfg, run, |w.log|, p, rest));
    RecountsEvent(cfg, run, w, Appended(cfg, run, w, p, rest), Stamp(cfg, run, |w.log|, p, rest), Account([], [], [v], []));
  }

  lemma VerdictOnly(e: Event)
    requires ReadVerdict(e).Some?
    ensures ReadAction(e).None? && ReadCompletion(e).None? && ReadRequest(e).None?
  {
  }

  /** The waiting call is submitted, and the policy's decision on it is carried out. */
  lemma CallTold(cfg: Config, run: Text, w: World, v: World, pending: DurableModelAction, request: ToolRequest,
                 result: ToolResult)
    requires PendingOf(run, w) == Done(pending) && request.runId == run && Later(w, v) && Coherent(run, v)
    requires InCall(Appended(cfg, run, w, RequestPayload(request), []), v) && Decided(cfg, v, request, result)
    ensures Recounts(cfg, run, w, v, Account([pending.action], [result], [], []))
  {
    hide Appended, PendingOf, RequestPayload, Decided, Coherent, Carried, ResultTells, Observe, IsCallEvent;
    var e := Stamp(cfg, run, |w.log|, RequestPayload(request), []);
    LastOfAppended(cfg, run, w, RequestPayload(request), []);
    DecidedTells(cfg, run, v, request, result);
    DecidedStatus(cfg, v, request, result);
    NothingWaits(run, v);
    var added := v.log[|w.log|..];
    var after := v.log[|w.log| + 1..];
    assert added == [e] + after;
    RequestOnly(cfg, run, |w.log|, request);
    forall i | 0 <= i < |after| ensures IsUntold(after[i].payload) {
      assert after[i] == v.log[|w.log| + 1 + i];
    }
    CarriesCall(e, after);
  }

  lemma DecidedStatus(cfg: Config, w: World, request: ToolRequest, result: ToolResult)
    requires Decided(cfg, w, request, result)
    ensures !w.state.status.ActionPending?
  {
    hide ActiveRequest, Shows, WaitsOn, IsFresh;
  }

  lemma RequestOnly(cfg: Config, run: Text, n: nat, request: ToolRequest)
    requires request.runId == run
    ensures var e := Stamp(cfg, run, n, RequestPayload(request), []);
            ReadRequest(e) == Some(request) && ReadAction(e).None? && ReadVerdict(e).None? && ReadCompletion(e).None?
  {
    hide KindOf;
    RequestReadsBack(request);
  }

  lemma CarriesCall(e: Event, after: seq<Event>)
    requires ReadRequest(e).Some? && ReadAction(e).None? && ReadVerdict(e).None? && ReadCompletion(e).None?
    requires forall i :: 0 <= i < |after| ==> IsUntold(after[i].payload)
    ensures Carried([e] + after, ReadRequest) == [ReadRequest(e).value]
    ensures Carried([e] + after, ReadAction) == [] && Carried([e] + after, ReadVerdict) == []
    ensures Carried([e] + after, ReadCompletion) == []
  {
    hide Carried, IsUntold, ReadAction, ReadVerdict, ReadCompletion, ReadRequest;
    forall i | 0 <= i < |after|
      ensures ReadAction(after[i]).None? && ReadVerdict(after[i]).None? && ReadCompletion(after[i]).None?
              && ReadRequest(after[i]).None?
    {
      UntoldIsUnread(after[i]);
    }
    CarriesNothing(after, ReadAction);
    CarriesNothing(after, ReadVerdict);
    CarriesNothing(after, ReadCompletion);
    CarriesNothing(after, ReadRequest);
    CarriedConcat([e], after, ReadAction);
    CarriedConcat([e], after, ReadVerdict);
    CarriedConcat([e], after, ReadCompletion);
    CarriedConcat([e], after, ReadRequest);
    CarriesOne(e, ReadAction);
    CarriesOne(e, ReadVerdict);
    CarriesOne(e, ReadCompletion);
    CarriesOne(e, ReadRequest);
  }
}
