/** Everything that outlives a process, over all runs, and what every operation of the runtime keeps. */
module Storages {
  import opened Values
  import opened Events
  import opened Reducer
  import opened Replay
  import opened RunGrammar
  import opened EventStores
  import opened ToolEffects
  import opened Protocol
  import opened RunInvariant
  import opened Continuation
  import opened Recovery

  /** The event table with its identity index, the effect tables, and what crossed the tool boundary. */
  datatype Storage = Storage(tables: map<Text, seq<Row>>, identities: map<Text, Fingerprint>, fx: Effects)

  function LogIn(st: Storage, run: Text): seq<Event> {
    EventsOf(RowsIn(st.tables, run))
  }

  ghost function WorldIn(st: Storage, run: Text): World {
    World(LogIn(st, run), StateOf(run, LogIn(st, run)), st.fx.intents, st.fx.receipts)
  }

  /** No stored event has taken an identity of the runtime's form that names another event. */
  ghost predicate HonestIndex(identities: map<Text, Fingerprint>) {
    forall id :: id in identities ==> IsHonest(identities[id].event)
  }

  /** The run that an effect identity names. */
  function OwnerOf(id: Text): Text {
    if id.EffectName? then id.run else Raw("")
  }

  /**
   * At the moment of the invocation the run's log replayed to TOOL_RUNNING, the tool and the arguments were
   * those of the latest TOOL_REQUESTED, and no receipt existed.
   */
  ghost predicate Justified(v: Invocation) {
    && v.effectId.EffectName? && !v.settled
    && var run := OwnerOf(v.effectId);
    && Accepted(run, v.log) && StateOf(run, v.log).status.ToolRunning?
    && var request := ActiveRequest(run, v.log);
    && request.Some?
    && v.effectId == EffectName(run, request.value.toolCallId)
    && v.toolName == request.value.toolName && v.argumentsJson == request.value.argumentsJson
  }

  ghost predicate JustifiedLedger(st: Storage) {
    forall i :: 0 <= i < |st.fx.ledger| ==>
      var v := st.fx.ledger[i]; Justified(v) && v.log <= LogIn(st, OwnerOf(v.effectId))
  }

  /** No unsafe effect was tried twice, each invocation was justified, and each receipt tells what an invocation did. */
  ghost predicate LedgerSound(registry: Text -> Option<bool>, st: Storage) {
    AtMostOnce(registry, st.fx) && JustifiedLedger(st) && Witnessed(st.fx)
  }

  /** A run whose log replays keeps the runtime's promises; nothing is claimed of a log that does not. */
  ghost predicate Kept(run: Text, st: Storage) {
    Accepted(run, LogIn(st, run)) ==> Inv(run, WorldIn(st, run))
  }

  /** The identity belongs to an effect of the run. */
  predicate OwnEffect(run: Text, id: Text) {
    id.EffectName? && id.run == run
  }

  /** Only the run's own facts may have changed, and nothing stored was replaced. */
  ghost predicate Touches(run: Text, a: Storage, b: Storage) {
    && (forall other :: other != run ==> LogIn(b, other) == LogIn(a, other))
    && LogIn(a, run) <= LogIn(b, run)
    && OnlyOwnEffects(run, a.fx, b.fx)
    && WriteOnce(a.fx, b.fx)
  }

  ghost predicate OnlyOwnEffects(run: Text, a: Effects, b: Effects) {
    forall id :: !OwnEffect(run, id) ==>
      && (id in b.intents <==> id in a.intents) && (id in a.intents ==> b.intents[id] == a.intents[id])
      && (id in b.receipts <==> id in a.receipts) && (id in a.receipts ==> b.receipts[id] == a.receipts[id])
  }

  lemma TouchesSelf(run: Text, a: Storage)
    ensures Touches(run, a, a)
  {
  }

  lemma TouchesChain(run: Text, a: Storage, b: Storage, c: Storage)
    requires Touches(run, a, b) && Touches(run, b, c)
    ensures Touches(run, a, c)
  {
    hide LogIn;
  }

  /** Facts about one run are not affected by what another run's operations do. */
  lemma OtherRunKeeps(run: Text, other: Text, a: Storage, b: Storage)
    requires Touches(run, a, b) && other != run && Kept(other, a)
    requires GoodEffects(b.fx.intents, b.fx.receipts)
    ensures Kept(other, b)
  {
    hide LogIn, ActiveRequest, Coherent, TurnFacts, Evidence, WriteOnce, Accepted;
    var w, v := WorldIn(a, other), WorldIn(b, other);
    assert v.log == w.log && v.state == w.state;
    if Inv(other, w) {
      OnlyEffectsDiffer(other, w, v);
      if v.state.status.Verifying? {
        EvidenceStays(run, other, a, b);
      }
      OpenIntentsStay(run, other, a, b);
    }
  }

  lemma OpenIntentsStay(run: Text, other: Text, a: Storage, b: Storage)
    requires Touches(run, a, b) && other != run
    requires GoodEffects(b.fx.intents, b.fx.receipts)
    requires OpenIntents(other, WorldIn(a, other))
    ensures OpenIntents(other, WorldIn(b, other))
  {
    hide LogIn, ActiveRequest, IntentOf, WriteOnce, StateOf;
    forall id | id in b.fx.intents && b.fx.intents[id].runId == other && id !in b.fx.receipts
      ensures id in a.fx.intents && a.fx.intents[id] == b.fx.intents[id] && id !in a.fx.receipts
    {
      assert !OwnEffect(run, id);
    }
  }

  lemma EvidenceStays(run: Text, other: Text, a: Storage, b: Storage)
    requires Touches(run, a, b) && other != run
    requires Evidence(other, WorldIn(a, other))
    ensures Evidence(other, WorldIn(b, other))
  {
    hide LogIn, ActiveRequest, IntentOf, StateOf;
  }

  // ----- One event joins -----

  lemma TablesAreDense(tables: map<Text, seq<Row>>, identities: map<Text, Fingerprint>, run: Text)
    requires GoodTables(tables, identities)
    ensures Dense(EventsOf(RowsIn(tables, run)))
  {
    hide ChainOf, Listed;
    assert StoredRows(run, RowsIn(tables, run));
  }

  lemma HonestGrows(identities: map<Text, Fingerprint>, e: Event)
    requires HonestIndex(identities) && IsHonest(e)
    ensures HonestIndex(identities[e.eventId := Fingerprint(e)])
  {
    hide IsHonest;
  }

  /** A stamped identity is in use only if the event it names is stored. */
  lemma StampIsFresh(tables: map<Text, seq<Row>>, identities: map<Text, Fingerprint>, e: Event)
    requires GoodTables(tables, identities) && HonestIndex(identities)
    requires e.sequence == |EventsOf(RowsIn(tables, e.runId))|
    requires e.eventId == EventName(e.runId, e.sequence, KindOf(e.payload))
    ensures e.eventId !in identities
    ensures var log := EventsOf(RowsIn(tables, e.runId)); forall i :: 0 <= i < |log| ==> log[i].eventId != e.eventId
  {
    hide ChainOf, StoredRows, KindOf, EventsOf;
    TablesAreDense(tables, identities, e.runId);
    if e.eventId in identities {
      var known := identities[e.eventId].event;
      assert IsHonest(known);
      assert known in EventsOf(RowsIn(tables, known.runId));
      TablesAreDense(tables, identities, known.runId);
    }
    assert Listed(EventsOf(RowsIn(tables, e.runId)), identities);
  }

  /** The storage after one stamped event of the run, however the store lays it out. */
  ghost predicate Joined(cfg: Config, run: Text, a: Storage, b: Storage, payload: Payload, rest: seq<Val>) {
    && LogIn(b, run) == LogIn(a, run) + [Stamp(cfg, run, |LogIn(a, run)|, payload, rest)]
    && (forall other :: other != run ==> LogIn(b, other) == LogIn(a, other))
    && b.fx == a.fx
    && HonestIndex(b.identities)
  }

  lemma JoinedTouches(cfg: Config, run: Text, a: Storage, b: Storage, payload: Payload, rest: seq<Val>)
    requires Joined(cfg, run, a, b, payload, rest)
    ensures Touches(run, a, b)
  {
    hide LogIn, HonestIndex, Stamp;
  }

  /** The invocations stay justified when logs grow. */
  lemma LedgerStays(run: Text, a: Storage, b: Storage)
    requires JustifiedLedger(a) && Touches(run, a, b) && b.fx.ledger == a.fx.ledger
    ensures JustifiedLedger(b)
  {
    hide LogIn, Justified, OnlyOwnEffects, WriteOnce;
    forall i | 0 <= i < |b.fx.ledger|
      ensures var v := b.fx.ledger[i]; Justified(v) && v.log <= LogIn(b, OwnerOf(v.effectId))
    {
      var v := a.fx.ledger[i];
      assert Justified(v) && v.log <= LogIn(a, OwnerOf(v.effectId));
      assert LogIn(a, OwnerOf(v.effectId)) <= LogIn(b, OwnerOf(v.effectId));
    }
  }

  /** A stored log that replays is coherent with its state. */
  lemma StoredIsCoherent(run: Name, st: Storage)
    requires GoodTables(st.tables, st.identities) && HonestIndex(st.identities) && Accepted(run, LogIn(st, run))
    ensures Coherent(run, WorldIn(st, run))
  {
    hide StoredRows, EventsOf, Accepted, StateOf, IsHonest;
    var log := LogIn(st, run);
    assert Listed(log, st.identities);
    forall i | 0 <= i < |log| ensures IsHonest(log[i]) {
      assert IsHonest(st.identities[log[i].eventId].event);
    }
  }

  lemma CoherentReplaysTo(run: Text, w: World)
    requires Coherent(run, w)
    ensures Accepted(run, w.log) && StateOf(run, w.log) == w.state && ReplayRun(run, w.log) == Ok(w.state)
    ensures w.state.nextSequence == |w.log|
  {
    hide Honest;
    AppliedIsLog(run, w.log);
    ReplayBooks(run, w.log);
  }

  lemma InvIsCoherent(run: Text, w: World)
    requires Inv(run, w)
    ensures Coherent(run, w) && GoodEffects(w.intents, w.receipts)
  {
    hide TurnFacts, Coherent;
  }

  /**
   * What persisting one event comes to: the log grows by that event, and still replays if and only if the
   * event was legal.  Then the state is the event's, and the run keeps its promises if the event is disciplined.
   */
  ghost predicate Persisted(cfg: Config, run: Text, a: Storage, b: Storage, p: Payload, rest: seq<Val>, legal: bool) {
    && Joined(cfg, run, a, b, p, rest)
    && (Accepted(run, LogIn(b, run)) <==> legal)
    && (legal ==>
          && WorldIn(b, run) == Appended(cfg, run, WorldIn(a, run), p, rest)
          && Coherent(run, WorldIn(b, run))
          && (Inv(run, WorldIn(a, run)) && Disciplined(run, WorldIn(a, run), p) ==> Inv(run, WorldIn(b, run))))
  }

  /** Persisting an event is legal exactly when the reducer can take it. */
  lemma JoinedIsPersisted(cfg: Config, run: Name, a: Storage, b: Storage, p: Payload, rest: seq<Val>)
    requires Joined(cfg, run, a, b, p, rest) && Coherent(run, WorldIn(a, run))
    ensures Persisted(cfg, run, a, b, p, rest, CanTake(cfg, run, WorldIn(a, run), p, rest))
    ensures Touches(run, a, b)
  {
    hide LogIn, Transition, TurnFacts, EffectFacts, Disciplined, HonestIndex, KindOf, Accepted, Coherent, StateOf;
    var w := WorldIn(a, run);
    var e := Stamp(cfg, run, |w.log|, p, rest);
    JoinedTouches(cfg, run, a, b, p, rest);
    CoherentReplaysTo(run, w);
    FreshIdentity(run, w, e);
    NewEventDecides(run, w.log, e);
    if CanTake(cfg, run, w, p, rest) {
      CoherentAppend(cfg, run, w, p, rest);
      CoherentReplaysTo(run, Appended(cfg, run, w, p, rest));
      if Inv(run, w) && Disciplined(run, w, p) {
        AppendKeepsInvariant(cfg, run, w, p, rest);
      }
    }
  }

  /** A disciplined event keeps the run: either its log no longer replays, or its promises stand. */
  lemma PersistedIsKept(cfg: Config, run: Text, a: Storage, b: Storage, p: Payload, rest: seq<Val>, legal: bool)
    requires Persisted(cfg, run, a, b, p, rest, legal) && Disciplined(run, WorldIn(a, run), p)
    requires Accepted(run, LogIn(a, run)) && Kept(run, a)
    ensures Kept(run, b)
  {
    hide Inv, Disciplined, Joined, Accepted, WorldIn, Coherent, Appended;
  }

  // ----- One call of the executor -----

  /** The executor is called for the request in force, while its tool is running. */
  ghost predicate MayExecute(run: Text, w: World, request: ToolRequest) {
    w.state.status.ToolRunning? && ActiveRequest(run, w.log) == Some(request)
  }

  /** The request in force has its intent and this receipt stored; reporting the receipt is what is left. */
  ghost predicate Recorded(cfg: Config, run: Text, w: World, request: ToolRequest, receipt: ToolReceipt) {
    && MayExecute(run, w, request) && cfg.registry(request.toolName).Some?
    && var i := IntentOf(request);
    && i.effectId in w.intents && w.intents[i.effectId] == i
    && i.effectId in w.receipts && w.receipts[i.effectId] == receipt
  }

  lemma OwnIntent(run: Text, w: World, request: ToolRequest)
    requires ActiveRequest(run, w.log) == Some(request)
    ensures request.runId == run && OwnEffect(run, IntentOf(request).effectId)
  {
    hide LastOf;
  }

  lemma ExecutedOnlyOwn(run: Text, retry: Option<bool>, behave: ToolIntent -> RunnerReply, intent: ToolIntent,
                        log: seq<Event>, before: Effects, after: Effects, r: Outcome<ToolReceipt>)
    requires OwnEffect(run, intent.effectId) && Executed(retry, behave, intent, log, before, after, r)
    ensures OnlyOwnEffects(run, before, after)
  {
    hide ReceiptOf;
  }

  lemma ExecutedWritesOnce(retry: Option<bool>, behave: ToolIntent -> RunnerReply, intent: ToolIntent,
                           log: seq<Event>, before: Effects, after: Effects, r: Outcome<ToolReceipt>)
    requires Executed(retry, behave, intent, log, before, after, r)
    ensures WriteOnce(before, after)
  {
    hide ReceiptOf;
  }

  lemma ExecutionTouches(run: Text, retry: Option<bool>, behave: ToolIntent -> RunnerReply, intent: ToolIntent,
                         log: seq<Event>, a: Storage, b: Storage, r: Outcome<ToolReceipt>)
    requires OwnEffect(run, intent.effectId) && b.tables == a.tables
    requires Executed(retry, behave, intent, log, a.fx, b.fx, r)
    ensures Touches(run, a, b)
  {
    hide Executed, OnlyOwnEffects, WriteOnce, EventsOf;
    ExecutedOnlyOwn(run, retry, behave, intent, log, a.fx, b.fx, r);
    ExecutedWritesOnce(retry, behave, intent, log, a.fx, b.fx, r);
  }

  lemma ExecutionLedger(run: Text, registry: Text -> Option<bool>, behave: ToolIntent -> RunnerReply,
                        request: ToolRequest, a: Storage, b: Storage, r: Outcome<ToolReceipt>)
    requires JustifiedLedger(a) && b.tables == a.tables
    requires Coherent(run, WorldIn(a, run)) && MayExecute(run, WorldIn(a, run), request)
    requires Executed(registry(request.toolName), behave, IntentOf(request), LogIn(a, run), a.fx, b.fx, r)
    ensures JustifiedLedger(b)
  {
    hide Coherent, ActiveRequest, Accepted, StateOf, ReceiptOf, IntentOf, EventsOf, RowsIn;
    OwnIntent(run, WorldIn(a, run), request);
    IntentNames(request);
    CoherentReplaysTo(run, WorldIn(a, run));
  }

  /** However the executor ends, the ledger is sound, and the run follows the uninterrupted one. */
  lemma SoundExecution(cfg: Config, run: Text, request: ToolRequest, a: Storage, b: Storage, r: Outcome<ToolReceipt>)
    requires LedgerSound(cfg.registry, a) && b.tables == a.tables
    requires Coherent(run, WorldIn(a, run)) && MayExecute(run, WorldIn(a, run), request)
    requires GoodEffects(a.fx.intents, a.fx.receipts)
    requires Executed(cfg.registry(request.toolName), cfg.runner, IntentOf(request), LogIn(a, run), a.fx, b.fx, r)
    ensures LedgerSound(cfg.registry, b) && Touches(run, a, b)
    ensures Follows(cfg, run, WorldIn(a, run), WorldIn(b, run))
    ensures r.Done? ==> Recorded(cfg, run, WorldIn(b, run), request, r.value)
  {
    hide Coherent, Executed, AtMostOnce, Witnessed, Justified, Follows, Touches, ActiveRequest, LogIn, JustifiedLedger, IntentOf,
         StateOf, GoodEffects;
    var w := WorldIn(a, run);
    OwnIntent(run, w, request);
    IntentNames(request);
    ExecutionTouches(run, cfg.registry(request.toolName), cfg.runner, IntentOf(request), LogIn(a, run), a, b, r);
    ExecutionLedger(run, cfg.registry, cfg.runner, request, a, b, r);
    ExecutorIsAtMostOnce(cfg.registry, cfg.runner, IntentOf(request), LogIn(a, run), a.fx, b.fx, r);
    ExecutorIsWitnessed(cfg.registry(request.toolName), cfg.runner, IntentOf(request), LogIn(a, run), a.fx, b.fx, r);
    ExecutionFollows(cfg, run, w, request, a.fx, b.fx, r);
    assert LogIn(b, run) == LogIn(a, run) by { SameTables(run, a, b); }
    assert WorldIn(b, run) == WithEffects(w, b.fx);
  }

  lemma SameTables(run: Text, a: Storage, b: Storage)
    requires a.tables == b.tables
    ensures LogIn(a, run) == LogIn(b, run)
  {
  }
}
