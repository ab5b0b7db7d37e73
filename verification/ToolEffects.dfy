/**
 * Durable tool effects: identities and recovery decisions (src/agent_runtime_lab/domain/tool_effects.py),
 * the write-once intent and receipt tables (persistence/sqlite_tool_effect_store.py), and the executor that
 * places one invocation between them (durable_tool_executor.py).
 */
module ToolEffects {
  import opened Values
  import opened Events

  // ----- Identities and decisions -----

  datatype ToolIntent = ToolIntent(effectId: Text, runId: Text, toolCallId: Text, toolName: Text, argumentsJson: Text)

  datatype ToolOutcome = SUCCEEDED | FAILED | TIMED_OUT

  datatype ToolOutput = ToolOutput(errorType: Val, message: Val, timeoutSeconds: Val, body: Text)

  datatype ToolReceipt = ToolReceipt(effectId: Text, outcome: ToolOutcome, output: ToolOutput)

  datatype RecoveryDecision = COMPLETED | SAFE_RETRY | UNKNOWN

  function DeriveEffectId(run: Text, call: Text): Text {
    EffectName(run, call)
  }

  function BuildIntent(run: Text, call: Text, tool: Text, arguments: Text): ToolIntent {
    ToolIntent(DeriveEffectId(run, call), run, call, tool, arguments)
  }

  /** What `ToolIntent.__post_init__` enforces. */
  predicate ValidIntent(i: ToolIntent) {
    i.effectId == DeriveEffectId(i.runId, i.toolCallId)
  }

  function DecideRecovery(receipt: Option<ToolReceipt>, retryIsIdempotent: bool): RecoveryDecision {
    if receipt.Some? then COMPLETED
    else if retryIsIdempotent then SAFE_RETRY
    else UNKNOWN
  }

  // ----- Outcomes of calls that a process may not survive -----

  datatype RuntimeError =
    | UnknownTool
    | DuplicateToolEffectConflict
    | MissingToolIntent
    | UnsafeToolRetry
    | InvalidTransitionError
    | GateReferenceMismatch
    | MissingVerificationEvidence
    | ModelActionValidationError
    | StepBudgetExhaustedError
    | EventRefused
    | ReplayFailed
    | SnapshotNotSaved
    | SnapshotUnreadable

  /** A call returns, raises, or the process stops at one of the points between two durable steps. */
  datatype Outcome<+T> = Done(value: T) | Raised(error: RuntimeError) | Crashed {
    predicate IsFailure() {
      !Done?
    }

    function PropagateFailure<U>(): Outcome<U>
      requires IsFailure()
    {
      if Crashed? then Outcome<U>.Crashed else Outcome<U>.Raised(error)
    }

    function Extract(): T
      requires !IsFailure()
    {
      value
    }
  }

  // ----- The effect store -----

  ghost predicate GoodEffects(intents: map<Text, ToolIntent>, receipts: map<Text, ToolReceipt>) {
    && (forall id :: id in intents ==> intents[id].effectId == id && ValidIntent(intents[id]))
    && (forall id :: id in receipts ==> receipts[id].effectId == id && id in intents)
  }

  class ToolEffectStore {
    var intents: map<Text, ToolIntent>
    var receipts: map<Text, ToolReceipt>

    ghost predicate Valid()
      reads this
    {
      GoodEffects(intents, receipts)
    }

    constructor ()
      ensures Valid() && intents == map[] && receipts == map[]
    {
      intents, receipts := map[], map[];
    }

    /** Persist an intent once; an exact redelivery is accepted, a different one is a conflict. */
    method SaveIntent(intent: ToolIntent) returns (r: Outcome<()>)
      requires Valid() && ValidIntent(intent)
      modifies `intents
      ensures Valid()
      ensures r == if intent.effectId in old(intents) && old(intents)[intent.effectId] != intent
                   then Raised(DuplicateToolEffectConflict) else Done(())
      ensures intents == if r.Done? then old(intents)[intent.effectId := intent] else old(intents)
    {
      if intent.effectId in intents {
        if intents[intent.effectId] != intent {
          return Raised(DuplicateToolEffectConflict);
        }
        assert intents[intent.effectId := intent] == intents;
        return Done(());
      }
      intents := intents[intent.effectId := intent];
      return Done(());
    }

    method LoadIntent(effectId: Text) returns (intent: Option<ToolIntent>)
      ensures intent == if effectId in intents then Some(intents[effectId]) else None
    {
      return if effectId in intents then Some(intents[effectId]) else None;
    }

    /** Persist a receipt once, and only beside its intent. */
    method SaveReceipt(receipt: ToolReceipt) returns (r: Outcome<()>)
      requires Valid()
      modifies `receipts
      ensures Valid()
      ensures r == if receipt.effectId in old(receipts) then
                     if old(receipts)[receipt.effectId] == receipt then Done(()) else Raised(DuplicateToolEffectConflict)
                   else if receipt.effectId in intents then Done(())
                   else Raised(MissingToolIntent)
      ensures receipts == if r.Done? then old(receipts)[receipt.effectId := receipt] else old(receipts)
    {
      if receipt.effectId in receipts {
        if receipts[receipt.effectId] != receipt {
          return Raised(DuplicateToolEffectConflict);
        }
        assert receipts[receipt.effectId := receipt] == receipts;
        return Done(());
      }
      if receipt.effectId !in intents {
        return Raised(MissingToolIntent);
      }
      receipts := receipts[receipt.effectId := receipt];
      return Done(());
    }

    method LoadReceipt(effectId: Text) returns (receipt: Option<ToolReceipt>)
      ensures receipt == if effectId in receipts then Some(receipts[effectId]) else None
    {
      return if effectId in receipts then Some(receipts[effectId]) else None;
    }
  }

  // ----- The external tool -----

  /** What the runner does with one call: return an output, raise a timeout, or raise anything else. */
  datatype RunnerReply =
    | Returns(body: Text)
    | RaisesTimeout(errorType: Text, message: Text, timeoutSeconds: Val)
    | RaisesError(errorType: Text, message: Text)

  /** The receipt of the effect tells what its tool did: what it returned, or the type and message of what it raised. */
  predicate Carries(receipt: ToolReceipt, effectId: Text, reply: RunnerReply) {
    && receipt.effectId == effectId
    && (reply.Returns? <==> receipt.outcome == SUCCEEDED)
    && (reply.RaisesTimeout? <==> receipt.outcome == TIMED_OUT)
    && (reply.Returns? ==> receipt.output.body == reply.body)
    && (!reply.Returns? ==> receipt.output.errorType == Str(reply.errorType) && receipt.output.message == Str(reply.message))
    && (reply.RaisesTimeout? ==> receipt.output.timeoutSeconds == reply.timeoutSeconds)
  }

  function ReceiptOf(effectId: Text, reply: RunnerReply): (receipt: ToolReceipt)
    ensures Carries(receipt, effectId, reply)
  {
    match reply
    case Returns(body) => ToolReceipt(effectId, SUCCEEDED, ToolOutput(Missing, Missing, Missing, body))
    case RaisesTimeout(errorType, message, seconds) =>
      ToolReceipt(effectId, TIMED_OUT, ToolOutput(Str(errorType), Str(message), seconds, EmptyObjectJson))
    case RaisesError(errorType, message) =>
      ToolReceipt(effectId, FAILED, ToolOutput(Str(errorType), Str(message), Missing, EmptyObjectJson))
  }

  /**
   * One crossing of the tool boundary, as a witness sees it: what was invoked, whether a receipt already
   * existed, the run's log at that moment, and what the tool did.
   */
  datatype Invocation = Invocation(effectId: Text, toolName: Text, argumentsJson: Text, settled: bool, log: seq<Event>,
                                   reply: RunnerReply)

  class ToolRunner {
    const behave: ToolIntent -> RunnerReply
    /** The witness outlives every process. */
    ghost var ledger: seq<Invocation>

    constructor (behave: ToolIntent -> RunnerReply, ghost ledger: seq<Invocation>)
      ensures this.behave == behave && this.ledger == ledger
    {
      this.behave := behave;
      this.ledger := ledger;
    }

    method Invoke(intent: ToolIntent, ghost settled: bool, ghost log: seq<Event>) returns (reply: RunnerReply)
      modifies `ledger
      ensures reply == behave(intent)
      ensures ledger == old(ledger) + [Invocation(intent.effectId, intent.toolName, intent.argumentsJson, settled, log, reply)]
    {
      ledger := ledger + [Invocation(intent.effectId, intent.toolName, intent.argumentsJson, settled, log, behave(intent))];
      return behave(intent);
    }
  }

  // ----- The executor -----

  datatype Effects = Effects(intents: map<Text, ToolIntent>, receipts: map<Text, ToolReceipt>, ledger: seq<Invocation>)

  /** No receipt yet, and either no intent or the same intent of a tool that may be retried. */
  ghost predicate MayInvoke(retryIsIdempotent: Option<bool>, intent: ToolIntent, fx: Effects) {
    && retryIsIdempotent.Some?
    && intent.effectId !in fx.receipts
    && (intent.effectId in fx.intents ==> fx.intents[intent.effectId] == intent && retryIsIdempotent.value)
  }

  ghost function WithIntent(intent: ToolIntent, fx: Effects): Effects {
    fx.(intents := fx.intents[intent.effectId := intent])
  }

  ghost function WithInvocation(intent: ToolIntent, log: seq<Event>, reply: RunnerReply, fx: Effects): Effects {
    fx.(ledger := fx.ledger + [Invocation(intent.effectId, intent.toolName, intent.argumentsJson, false, log, reply)])
  }

  ghost function WithReceipt(receipt: ToolReceipt, fx: Effects): Effects {
    fx.(receipts := fx.receipts[receipt.effectId := receipt])
  }

  /** Everything one call of the executor can do to the durable facts and the tool. */
  ghost predicate Executed(retryIsIdempotent: Option<bool>, behave: ToolIntent -> RunnerReply, intent: ToolIntent,
                           log: seq<Event>, before: Effects, after: Effects, r: Outcome<ToolReceipt>)
  {
    var id := intent.effectId;
    var receipt := ReceiptOf(id, behave(intent));
    var planned := WithIntent(intent, before);
    var invoked := WithInvocation(intent, log, behave(intent), planned);
    match r
    case Done(value) =>
      && retryIsIdempotent.Some?
      && (if id in before.intents && id in before.receipts then
            before.intents[id] == intent && value == before.receipts[id] && after == before
          else
            && MayInvoke(retryIsIdempotent, intent, before) && after == WithReceipt(value, invoked)
            && Carries(value, id, behave(intent)) && value == receipt)
    case Crashed =>
      && MayInvoke(retryIsIdempotent, intent, before)
      && (after == planned || after == invoked || after == WithReceipt(receipt, invoked))
    case Raised(error) =>
      && after == before
      && (|| (error == UnknownTool && retryIsIdempotent.None?)
          || (error == DuplicateToolEffectConflict && id in before.intents && before.intents[id] != intent)
          || (&& error == UnsafeToolRetry && retryIsIdempotent == Some(false)
              && id in before.intents && before.intents[id] == intent && id !in before.receipts))
  }

  class DurableToolExecutor {
    const store: ToolEffectStore
    const runner: ToolRunner
    /** `retry_is_idempotent` of each registered tool. */
    const registry: Text -> Option<bool>

    ghost function Facts(): Effects
      reads store, runner
    {
      Effects(store.intents, store.receipts, runner.ledger)
    }

    constructor (store: ToolEffectStore, runner: ToolRunner, registry: Text -> Option<bool>)
      ensures this.store == store && this.runner == runner && this.registry == registry
    {
      this.store := store;
      this.runner := runner;
      this.registry := registry;
    }

    /** Execute a new effect, or resolve a redelivery from what is already durable. */
    method Execute(intent: ToolIntent, ghost log: seq<Event>) returns (r: Outcome<ToolReceipt>)
      requires store.Valid() && ValidIntent(intent)
      modifies store, runner
      ensures store.Valid()
      ensures Executed(registry(intent.toolName), runner.behave, intent, log, old(Facts()), Facts(), r)
    {
      var definition := registry(intent.toolName);
      if definition.None? {
        return Raised(UnknownTool);
      }
      var persistedIntent := store.LoadIntent(intent.effectId);
      if persistedIntent.None? {
        var saved := store.SaveIntent(intent);
        if * {
          return Crashed;
        }
      } else {
        var saved := store.SaveIntent(intent);
        if saved.Raised? {
          return Raised(saved.error);
        }
        assert store.intents == old(store.intents);
        var persistedReceipt := store.LoadReceipt(intent.effectId);
        if persistedReceipt.Some? {
          return Done(persistedReceipt.value);
        }
        var decision := DecideRecovery(None, definition.value);
        if decision == UNKNOWN {
          return Raised(UnsafeToolRetry);
        }
      }
      r := InvokeAndRecord(intent, log);
    }

    /** Invoke the tool, then persist what it did; a stop in between loses the observation. */
    method InvokeAndRecord(intent: ToolIntent, ghost log: seq<Event>) returns (r: Outcome<ToolReceipt>)
      requires store.Valid() && intent.effectId in store.intents && intent.effectId !in store.receipts
      modifies store`receipts, runner
      ensures store.Valid()
      ensures var invoked := WithInvocation(intent, log, runner.behave(intent), old(Facts()));
              var receipt := ReceiptOf(intent.effectId, runner.behave(intent));
              if r.Done? then
                && Carries(r.value, intent.effectId, runner.behave(intent)) && Facts() == WithReceipt(r.value, invoked)
                && r.value == receipt
              else r.Crashed? && (Facts() == invoked || Facts() == WithReceipt(receipt, invoked))
    {
      var reply := runner.Invoke(intent, intent.effectId in store.receipts, log);
      var receipt := ReceiptOf(intent.effectId, reply);
      if * {
        return Crashed;
      }
      var saved := store.SaveReceipt(receipt);
      if * {
        return Crashed;
      }
      return Done(receipt);
    }

    method LoadReceipt(effectId: Text) returns (receipt: Option<ToolReceipt>)
      ensures receipt == if effectId in store.receipts then Some(store.receipts[effectId]) else None
    {
      receipt := store.LoadReceipt(effectId);
    }
  }

  // ----- At most once -----

  /**
   * Each invocation belongs to a stored intent and found no receipt, and two invocations of one effect are
   * of a tool registered as retry-safe.
   */
  ghost predicate AtMostOnce(registry: Text -> Option<bool>, fx: Effects) {
    && (forall i :: 0 <= i < |fx.ledger| ==>
          var v := fx.ledger[i];
          && v.effectId in fx.intents
          && fx.intents[v.effectId].toolName == v.toolName
          && fx.intents[v.effectId].argumentsJson == v.argumentsJson
          && !v.settled)
    && (forall i, j :: 0 <= i < j < |fx.ledger| && fx.ledger[i].effectId == fx.ledger[j].effectId ==>
          registry(fx.ledger[j].toolName) == Some(true))
  }

  /** Intents and receipts are never replaced. */
  ghost predicate WriteOnce(before: Effects, after: Effects) {
    && (forall id :: id in before.intents ==> id in after.intents && after.intents[id] == before.intents[id])
    && (forall id :: id in before.receipts ==> id in after.receipts && after.receipts[id] == before.receipts[id])
    && before.ledger <= after.ledger
  }

  lemma InvocationKeepsAtMostOnce(registry: Text -> Option<bool>, intent: ToolIntent, log: seq<Event>, reply: RunnerReply,
                                  fx: Effects)
    requires AtMostOnce(registry, fx) && MayInvoke(registry(intent.toolName), intent, fx)
    ensures AtMostOnce(registry, WithIntent(intent, fx))
    ensures AtMostOnce(registry, WithInvocation(intent, log, reply, WithIntent(intent, fx)))
  {
  }

  /** However a call of the executor ends, the tool has not been invoked once too often. */
  lemma ExecutorIsAtMostOnce(registry: Text -> Option<bool>, behave: ToolIntent -> RunnerReply, intent: ToolIntent,
                             log: seq<Event>, before: Effects, after: Effects, r: Outcome<ToolReceipt>)
    requires Executed(registry(intent.toolName), behave, intent, log, before, after, r)
    requires AtMostOnce(registry, before)
    ensures AtMostOnce(registry, after) && WriteOnce(before, after)
  {
    if MayInvoke(registry(intent.toolName), intent, before) {
      InvocationKeepsAtMostOnce(registry, intent, log, behave(intent), before);
    }
  }

  // ----- What receipts tell -----

  /** The invocation at i is the last one of the effect, and the receipt tells what it did. */
  ghost predicate ToldBy(ledger: seq<Invocation>, i: int, receipt: ToolReceipt) {
    && 0 <= i < |ledger| && ledger[i].effectId == receipt.effectId
    && Carries(receipt, receipt.effectId, ledger[i].reply)
    && forall j :: i < j < |ledger| ==> ledger[j].effectId != receipt.effectId
  }

  /** Each stored receipt tells what the last invocation of its effect did. */
  ghost predicate Witnessed(fx: Effects) {
    forall id :: id in fx.receipts ==> exists i :: ToldBy(fx.ledger, i, fx.receipts[id])
  }

  /** The receipt holds what the last invocation of its effect returned. */
  ghost predicate Returned(fx: Effects, receipt: ToolReceipt) {
    exists i :: ToldBy(fx.ledger, i, receipt) && fx.ledger[i].reply == Returns(receipt.output.body)
  }

  lemma SuccessIsReturned(fx: Effects, id: Text)
    requires Witnessed(fx) && id in fx.receipts && fx.receipts[id].outcome == SUCCEEDED
    ensures Returned(fx, fx.receipts[id])
  {
    var i :| ToldBy(fx.ledger, i, fx.receipts[id]);
    assert fx.ledger[i].reply == Returns(fx.receipts[id].output.body);
  }

  lemma InvocationKeepsWitness(fx: Effects, v: Invocation)
    requires Witnessed(fx) && v.effectId !in fx.receipts
    requires forall id :: id in fx.receipts ==> fx.receipts[id].effectId == id
    ensures Witnessed(fx.(ledger := fx.ledger + [v]))
  {
    hide Carries;
    var grown := fx.(ledger := fx.ledger + [v]);
    forall id | id in fx.receipts ensures exists i :: ToldBy(grown.ledger, i, fx.receipts[id]) {
      var i :| ToldBy(fx.ledger, i, fx.receipts[id]);
      assert ToldBy(grown.ledger, i, fx.receipts[id]);
    }
  }

  lemma ReceiptKeepsWitness(fx: Effects, receipt: ToolReceipt)
    requires Witnessed(fx) && ToldBy(fx.ledger, |fx.ledger| - 1, receipt)
    ensures Witnessed(WithReceipt(receipt, fx))
  {
    hide ToldBy;
  }

  /** However a call of the executor ends, no receipt is stored that no invocation has earned. */
  lemma ExecutorIsWitnessed(retry: Option<bool>, behave: ToolIntent -> RunnerReply, intent: ToolIntent,
                            log: seq<Event>, before: Effects, after: Effects, r: Outcome<ToolReceipt>)
    requires Executed(retry, behave, intent, log, before, after, r) && Witnessed(before)
    requires GoodEffects(before.intents, before.receipts)
    ensures Witnessed(after)
  {
    hide Witnessed, Carries;
    if MayInvoke(retry, intent, before) {
      var planned := WithIntent(intent, before);
      SameReceipts(before, planned);
      InvocationKeepsWitness(planned, Invocation(intent.effectId, intent.toolName, intent.argumentsJson, false, log,
                                                 behave(intent)));
      var invoked := WithInvocation(intent, log, behave(intent), planned);
      ReceiptKeepsWitness(invoked, ReceiptOf(intent.effectId, behave(intent)));
    }
  }

  lemma SameReceipts(a: Effects, b: Effects)
    requires Witnessed(a) && b.receipts == a.receipts && b.ledger == a.ledger
    ensures Witnessed(b)
  {
  }
}
