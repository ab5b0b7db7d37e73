/** Following the uninterrupted run from a world in which some process stopped. */
module Recovery {
  import opened Values
  import opened Events
  import opened Reducer
  import opened Replay
  import opened Lifecycle
  import opened ToolEffects
  import opened Protocol
  import opened RunInvariant
  import opened Continuation

  /**
   * v replays and extends w.  It keeps what w keeps: the run's promises, the log's own observation, and, if the run
   * has a budget, the allowance of events.
   */
  ghost predicate Grows(run: Text, w: World, v: World) {
    && Coherent(run, v) && w.log <= v.log
    && (Inv(run, w) ==> Inv(run, v))
    && (Observed(w) ==> Observed(v))
    && (Bounded(run, w) ==> Bounded(run, v) && |v.log| + EventsLeft(v) <= |w.log| + EventsLeft(w))
  }

  /**
   * v has grown from w, and lies on the uninterrupted run from w if that run has a budget.  A turn that was begun
   * on another observation than the log's is not what the durable facts can repeat, so nothing is claimed of it.
   */
  ghost predicate Follows(cfg: Config, run: Text, w: World, v: World) {
    && Grows(run, w, v)
    && (Bounded(run, w) && Observed(w) ==> Along(cfg, run, w, v))
  }

  lemma FollowsSelf(cfg: Config, run: Text, w: World)
    requires Coherent(run, w)
    ensures Follows(cfg, run, w, w)
  {
    hide Coherent, Inv, Bounded, Along, Observed, EventsLeft;
    if Bounded(run, w) { AlongSelf(cfg, run, w); }
  }

  lemma GrowsChain(run: Text, a: World, b: World, c: World)
    requires Grows(run, a, b) && Grows(run, b, c)
    ensures Grows(run, a, c)
  {
    hide Coherent, Inv, Bounded, Observed, EventsLeft;
  }

  /** The next step, where it is acceptable. */
  lemma FollowsStep(cfg: Config, run: Text, w: World)
    requires Coherent(run, w) && Next(cfg, run, w).Some?
    requires var n := Next(cfg, run, w).value; n.AppendEvent? ==> Acceptable(cfg, run, w, n.payload, n.rest)
    ensures Follows(cfg, run, w, Step(cfg, run, w))
  {
    hide Inv, Along, Next, Acceptable, Coherent, Observed, EventsLeft, NextKind, Appended, WithinBudget;
    var n := Next(cfg, run, w).value;
    if n.AppendEvent? {
      NextKinds(cfg, run, w);
      NextAsksOn(cfg, run, w);
      EventGrows(cfg, run, w, n.payload, n.rest);
    } else {
      EffectGrows(cfg, run, w);
    }
    if Bounded(run, w) { AlongStep(cfg, run, w); }
  }

  /** An acceptable event of the kind that comes next, whatever it says. */
  lemma EventGrows(cfg: Config, run: Text, w: World, p: Payload, rest: seq<Val>)
    requires Coherent(run, w) && Acceptable(cfg, run, w, p, rest) && NextKind(w.state, p)
    requires p.ModelActionRequested? ==> p.observationJson == Str(Observe(w.log))
    ensures Grows(run, w, Appended(cfg, run, w, p, rest))
  {
    hide Inv, Transition, Disciplined, KindOf, Coherent, Observed, EventsLeft, NextKind, Appended, Observe, WithinBudget;
    AppendStays(cfg, run, w, p, rest);
    if Observed(w) { AppendKeepsObserved(cfg, run, w, p, rest); }
    if Bounded(run, w) { EventIsSafe(cfg, run, w, p, rest); }
  }

  /** An intent or a receipt of the running tool. */
  lemma EffectGrows(cfg: Config, run: Text, w: World)
    requires Coherent(run, w) && Next(cfg, run, w).Some? && !Next(cfg, run, w).value.AppendEvent?
    ensures Grows(run, w, Step(cfg, run, w))
  {
    hide Inv, Next, Coherent, Observe, Gauge;
    EffectStays(run, w, Step(cfg, run, w));
    if Inv(run, w) { EffectStepIsSafe(cfg, run, w); }
    if Bounded(run, w) { StepIsSafe(cfg, run, w); }
  }

  lemma EffectStays(run: Text, w: World, v: World)
    requires Coherent(run, w) && v.log == w.log && v.state == w.state
    ensures Coherent(run, v)
  {
    hide Accepted, StateOf, Honest;
  }

  /** Any acceptable event keeps what the log promised. */
  lemma AppendStays(cfg: Config, run: Text, w: World, p: Payload, rest: seq<Val>)
    requires Coherent(run, w) && Acceptable(cfg, run, w, p, rest)
    ensures var v := Appended(cfg, run, w, p, rest);
            Coherent(run, v) && w.log <= v.log && (Inv(run, w) ==> Inv(run, v))
  {
    hide TurnFacts, EffectFacts, Transition, Disciplined, KindOf, Coherent;
    CoherentAppend(cfg, run, w, p, rest);
    if Inv(run, w) { AppendKeepsInvariant(cfg, run, w, p, rest); }
  }

  lemma FollowsChain(cfg: Config, run: Text, a: World, b: World, c: World)
    requires Follows(cfg, run, a, b) && Follows(cfg, run, b, c)
    ensures Follows(cfg, run, a, c)
  {
    hide Grows, Along, Bounded, Observed;
    GrowsChain(run, a, b, c);
    if Bounded(run, a) && Observed(a) {
      GrowsParts(run, a, b);
      AlongChain(cfg, run, a, b, c);
    }
  }

  lemma GrowsParts(run: Text, w: World, v: World)
    requires Grows(run, w, v)
    ensures Coherent(run, v) && w.log <= v.log && (Inv(run, w) ==> Inv(run, v)) && (Observed(w) ==> Observed(v))
    ensures Bounded(run, w) ==> Bounded(run, v) && |v.log| + EventsLeft(v) <= |w.log| + EventsLeft(w)
  {
    hide Coherent, Inv, Bounded, Observed, EventsLeft;
  }

  /** Growth beyond a follower follows, if it does from where the waiting turn is on the log's own observation. */
  lemma FollowsByGrowth(cfg: Config, run: Text, w: World, v: World, x: World)
    requires Follows(cfg, run, w, v) && Grows(run, v, x)
    requires Observed(w) ==> Follows(cfg, run, v, x)
    ensures Follows(cfg, run, w, x)
  {
    hide Grows, Along, Bounded, Observed;
    GrowsChain(run, w, v, x);
    if Observed(w) {
      FollowsChain(cfg, run, w, v, x);
    }
  }

  /** A halted follower of a run with a budget is where the uninterrupted run ends. */
  lemma FollowedToTheEnd(cfg: Config, run: Text, w: World, v: World)
    requires Bounded(run, w) && Observed(w) && Follows(cfg, run, w, v) && Next(cfg, run, v).None?
    ensures v == Finish(cfg, run, w)
  {
    hide Inv, Next, Finish, Observed, Grows;
    HaltedIsFinished(cfg, run, w, v);
  }

  // ----- The executor as part of the run -----

  ghost function WithEffects(w: World, fx: Effects): World {
    w.(intents := fx.intents, receipts := fx.receipts)
  }

  /** The intent is stored, or already was. */
  lemma PlanningFollows(cfg: Config, run: Text, w: World, request: ToolRequest)
    requires Coherent(run, w) && w.state.status.ToolRunning? && ActiveRequest(run, w.log) == Some(request)
    requires cfg.registry(request.toolName).Some?
    requires var i := IntentOf(request); i.effectId in w.intents ==> w.intents[i.effectId] == i
    ensures var i := IntentOf(request);
            Follows(cfg, run, w, w.(intents := w.intents[i.effectId := i]))
  {
    hide Coherent, ActiveRequest, ResultPayload, ResultRest, ReceiptOf, Follows, IntentOf;
    var intent := IntentOf(request);
    var planned := w.(intents := w.intents[intent.effectId := intent]);
    if intent.effectId in w.intents {
      assert planned == w;
      FollowsSelf(cfg, run, w);
    } else {
      assert IntentOf(request).toolName == request.toolName by { IntentNames(request); }
      assert Next(cfg, run, w) == Some(PersistIntent(intent));
      FollowsStep(cfg, run, w);
    }
  }

  lemma IntentNames(r: ToolRequest)
    ensures var i := IntentOf(r);
            ValidIntent(i) && i.toolName == r.toolName && i.argumentsJson == r.argumentsJson && i.runId == r.runId
            && i.effectId == EffectName(r.runId, r.toolCallId)
  {
  }

  /** The receipt of the invocation is stored beside its intent. */
  lemma RecordingFollows(cfg: Config, run: Text, w: World, request: ToolRequest)
    requires Coherent(run, w) && w.state.status.ToolRunning? && ActiveRequest(run, w.log) == Some(request)
    requires cfg.registry(request.toolName).Some?
    requires var i := IntentOf(request);
             i.effectId in w.intents && w.intents[i.effectId] == i && i.effectId !in w.receipts
    ensures var i := IntentOf(request); var receipt := ReceiptOf(i.effectId, cfg.runner(i));
            Follows(cfg, run, w, w.(receipts := w.receipts[i.effectId := receipt]))
  {
    hide Coherent, ActiveRequest, ResultPayload, ResultRest, ReceiptOf, Follows, IntentOf;
    IntentNames(request);
    var intent := IntentOf(request);
    assert Next(cfg, run, w) == Some(PersistReceipt(ReceiptOf(intent.effectId, cfg.runner(intent))));
    FollowsStep(cfg, run, w);
  }

  /** With intent and receipt stored, the run goes on by reporting the receipt. */
  lemma ReportIsNext(cfg: Config, run: Text, w: World, request: ToolRequest)
    requires w.state.status.ToolRunning? && ActiveRequest(run, w.log) == Some(request)
    requires cfg.registry(request.toolName).Some?
    requires var i := IntentOf(request);
             i.effectId in w.intents && w.intents[i.effectId] == i && i.effectId in w.receipts
    ensures var receipt := w.receipts[IntentOf(request).effectId];
            Next(cfg, run, w) == Some(AppendEvent(ResultPayload(request.toolCallId, receipt), ResultRest(receipt)))
  {
    hide ActiveRequest, ResultPayload, ResultRest, ReceiptOf, IntentOf;
    IntentNames(request);
  }

  /** However the executor ends while the tool is running, the world follows the uninterrupted run. */
  lemma ExecutionFollows(cfg: Config, run: Text, w: World, request: ToolRequest,
                         before: Effects, after: Effects, r: Outcome<ToolReceipt>)
    requires Coherent(run, w) && w.state.status.ToolRunning? && ActiveRequest(run, w.log) == Some(request)
    requires GoodEffects(w.intents, w.receipts)
    requires before.intents == w.intents && before.receipts == w.receipts
    requires Executed(cfg.registry(request.toolName), cfg.runner, IntentOf(request), w.log, before, after, r)
    ensures Follows(cfg, run, w, WithEffects(w, after))
    ensures r.Done? ==>
              var i := IntentOf(request); var v := WithEffects(w, after);
              && cfg.registry(request.toolName).Some?
              && i.effectId in v.intents && v.intents[i.effectId] == i
              && i.effectId in v.receipts && v.receipts[i.effectId] == r.value
  {
    hide Coherent, ActiveRequest, ReceiptOf, Follows, IntentOf, Next;
    FollowsSelf(cfg, run, w);
    ReceiptsHaveIntents(w.intents, w.receipts);
    hide GoodEffects;
    var intent := IntentOf(request);
    var id := intent.effectId;
    if MayInvoke(cfg.registry(request.toolName), intent, before) {
      PlanningFollows(cfg, run, w, request);
      var planned := w.(intents := w.intents[id := intent]);
      if id in after.receipts {
        FollowsKeeps(cfg, run, w, planned);
        RecordingFollows(cfg, run, planned, request);
        FollowsChain(cfg, run, w, planned, WithEffects(w, after));
      }
    } else {
      assert WithEffects(w, after) == w;
    }
  }

  lemma FollowsKeeps(cfg: Config, run: Text, w: World, v: World)
    requires Follows(cfg, run, w, v)
    ensures Coherent(run, v) && w.log <= v.log && (Inv(run, w) ==> Inv(run, v)) && (Observed(w) ==> Observed(v))
  {
    hide Coherent, Inv, Along, Bounded, Observed, EventsLeft;
  }

  lemma ReceiptsHaveIntents(intents: map<Text, ToolIntent>, receipts: map<Text, ToolReceipt>)
    requires GoodEffects(intents, receipts)
    ensures forall id :: id in receipts ==> id in intents
  {
  }

  /** Where the executor raises, the uninterrupted run ends there too, unless a retry would be unsafe. */
  lemma RaisedExecution(cfg: Config, run: Text, w: World, request: ToolRequest,
                        before: Effects, after: Effects, r: Outcome<ToolReceipt>)
    requires w.state.status.ToolRunning? && ActiveRequest(run, w.log) == Some(request) && r.Raised?
    requires before.intents == w.intents && before.receipts == w.receipts
    requires Executed(cfg.registry(request.toolName), cfg.runner, IntentOf(request), w.log, before, after, r)
    ensures after == before
    ensures if r.error == UnsafeToolRetry then UnsafeOpenEffect(cfg, run, w) else Next(cfg, run, w).None?
  {
    hide ActiveRequest, ResultPayload, ResultRest, ReceiptOf, IntentOf;
    IntentNames(request);
  }

  // ----- Where a restart cannot resume -----

  /** The effect in progress may or may not have happened, and its tool must not be called twice. */
  ghost predicate UnsafeOpenEffect(cfg: Config, run: Text, w: World) {
    var request := ActiveRequest(run, w.log);
    && w.state.status.ToolRunning? && request.Some?
    && var i := IntentOf(request.value);
    && i.effectId in w.intents && w.intents[i.effectId] == i
    && i.effectId !in w.receipts
    && cfg.registry(i.toolName) == Some(false)
  }

  /**
   * The durable facts do not determine what the stopped process had learned: the adapter was asked and no
   * answer is stored, a request was stored and no decision, or an unsafe effect is open.
   */
  ghost predicate Stuck(cfg: Config, run: Text, w: World) {
    w.state.status.ModelPending? || w.state.status.ToolPending? || UnsafeOpenEffect(cfg, run, w)
  }

  lemma StuckHasNext(cfg: Config, run: Text, w: World)
    requires Inv(run, w) && Stuck(cfg, run, w)
    ensures Next(cfg, run, w).Some?
  {
    hide ActiveRequest, Inv, DecisionPayload, DecisionRest, ReceiptOf, ProposalPayload, Observe, ResultPayload,
         ResultRest;
    if w.state.status.ToolPending? {
      assert ActiveRequest(run, w.log).Some? by { RequestOfPhase(run, w); }
    }
  }

  lemma RequestOfPhase(run: Text, w: World)
    requires Inv(run, w) && (InToolPhase(w.state.status) || w.state.status.Verifying?)
    ensures ActiveRequest(run, w.log).Some?
  {
    hide Coherent, TurnFacts, EffectFacts, ActiveRequest;
    RequestIsActive(run, w);
  }

  /** The uninterrupted run goes on from a stuck world, so a log left as it is is never its log. */
  lemma StuckIsNotFinished(cfg: Config, run: Text, w: World)
    requires Bounded(run, w) && Stuck(cfg, run, w)
    ensures Finish(cfg, run, w) != w
  {
    hide Next, Finish, Stuck, EventsLeft;
    StuckHasNext(cfg, run, w);
    FinishIsReached(cfg, run, w);
  }
}
