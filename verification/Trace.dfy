/** Deterministic traces of a replayed log (src/agent_runtime_lab/trace.py). */
module Trace {
  import opened Values
  import opened Events
  import opened RunStates
  import opened Reducer
  import opened Replay
  import opened Lifecycle

  /** SHA-256 of the canonical payload, taken to be injective. */
  datatype PayloadSeal = PayloadSeal(payload: Payload, rest: seq<Val>)

  datatype TraceEvent = TraceEvent(sequence: nat, eventId: Text, kind: Kind, occurredAt: int,
                                   before: Status, after: Status, payloadSeal: PayloadSeal, seal: Fingerprint)

  datatype TraceMetrics = TraceMetrics(eventCount: nat, modelActionCount: nat, toolRequestCount: nat,
                                       gateEscalationCount: nat, verificationSuccessCount: nat,
                                       verificationFailureCount: nat, runtimeSteps: nat, durationMs: nat)

  datatype RunTrace = RunTrace(runId: Text, finalStatus: Status, records: seq<TraceEvent>, metrics: TraceMetrics)

  /** Microseconds between the first and the last event, in whole milliseconds, never negative. */
  function DurationMs(events: seq<Event>): nat {
    if |events| <= 1 then 0
    else
      var elapsed := events[|events| - 1].occurredAt - events[0].occurredAt;
      if elapsed <= 0 then 0 else elapsed / 1000
  }

  /** The status that the first n deliveries lead to. */
  ghost function StatusAfter(run: Text, events: seq<Event>, n: nat): Status
    requires n <= |events|
  {
    StateOf(run, events[..n]).status
  }

  ghost predicate RecordOf(run: Text, events: seq<Event>, i: nat, record: TraceEvent)
    requires i < |events|
  {
    var e := events[i];
    record == TraceEvent(e.sequence, e.eventId, KindOf(e.payload), e.occurredAt,
                         StatusAfter(run, events, i), StatusAfter(run, events, i + 1), PayloadSeal(e.payload, e.rest),
                         Fingerprint(e))
  }

  ghost predicate RecordsOf(run: Text, events: seq<Event>, records: seq<TraceEvent>) {
    |records| == |events| && forall i :: 0 <= i < |events| ==> RecordOf(run, events, i, records[i])
  }

  /** One record per delivery, each with the statuses that replay has before and after it. */
  ghost predicate Describes(run: Text, events: seq<Event>, trace: RunTrace) {
    && trace.runId == run && trace.finalStatus == StatusAfter(run, events, |events|)
    && RecordsOf(run, events, trace.records)
    && trace.metrics == TraceMetrics(
         |events|, Count(events, MODEL_ACTION_PROPOSED), Count(events, TOOL_REQUESTED), Count(events, TOOL_ESCALATED),
         Count(events, VERIFICATION_SUCCEEDED), Count(events, VERIFICATION_FAILED),
         StateOf(run, events).turnIndex, DurationMs(events))
  }

  /** Replay the events once and emit the trace; it fails exactly where replay fails, with the same error. */
  method BuildRunTrace(run: Name, events: seq<Event>) returns (r: Result<RunTrace, ReduceError>)
    ensures match ReplayRun(run, events)
            case Err(error) => r == Err(error)
            case Ok(_) => r.Ok? && Describes(run, events, r.value)
  {
    hide Reduce, Count, KindOf, DurationMs;
    var state := Initial(run);
    var records: seq<TraceEvent> := [];
    for n := 0 to |events|
      invariant ReplayRun(run, events[..n]) == Ok(state)
      invariant |records| == n
      invariant forall i :: 0 <= i < n ==> RecordOf(run, events, i, records[i])
    {
      var e := events[n];
      assert events[..n + 1] == events[..n] + [e];
      FoldSnoc(Initial(run), events[..n], e);
      var next := Reduce(state, e);
      if next.Err? {
        FoldConcat(Initial(run), events[..n + 1], events[n + 1..]);
        assert events[..n + 1] + events[n + 1..] == events;
        return Err(next.error);
      }
      records := records + [TraceEvent(e.sequence, e.eventId, KindOf(e.payload), e.occurredAt,
                                       state.status, next.value.status, PayloadSeal(e.payload, e.rest), Fingerprint(e))];
      state := next.value;
    }
    assert events[..|events|] == events;
    var metrics := TraceMetrics(
      |events|, Count(events, MODEL_ACTION_PROPOSED), Count(events, TOOL_REQUESTED), Count(events, TOOL_ESCALATED),
      Count(events, VERIFICATION_SUCCEEDED), Count(events, VERIFICATION_FAILED), state.turnIndex, DurationMs(events));
    return Ok(RunTrace(run, state.status, records, metrics));
  }

  /** The records form a chain from NEW to the final status, and each link is a move of the state machine. */
  lemma RecordsFormChain(run: Text, log: seq<Event>, trace: RunTrace)
    requires Accepted(run, log) && Describes(run, log, trace)
    ensures log != [] ==> trace.records[0].before.New? && trace.records[|log| - 1].after == trace.finalStatus
    ensures forall i :: 0 <= i < |log| - 1 ==> trace.records[i].after == trace.records[i + 1].before
    ensures forall i :: 0 <= i < |log| ==>
              !IsTerminal(trace.records[i].before) && Moves(trace.records[i].before, log[i].payload, trace.records[i].after)
  {
    hide StateOf, Accepted, Moves, KindOf, Count, DurationMs, StepMoves;
    assert log[..|log|] == log;
    if log != [] {
      assert RecordOf(run, log, 0, trace.records[0]) && RecordOf(run, log, |log| - 1, trace.records[|log| - 1]);
      assert StateOf(run, log[..0]).status.New? by { EmptyIsNew(run, log[..0]); }
    }
    forall i | 0 <= i < |log| - 1 ensures trace.records[i].after == trace.records[i + 1].before {
      assert RecordOf(run, log, i, trace.records[i]) && RecordOf(run, log, i + 1, trace.records[i + 1]);
    }
    forall i | 0 <= i < |log|
      ensures !IsTerminal(trace.records[i].before) && Moves(trace.records[i].before, log[i].payload, trace.records[i].after)
    {
      assert RecordOf(run, log, i, trace.records[i]);
      AcceptedPrefix(run, log, i + 1);
      LastMove(run, log[..i + 1]);
      assert log[..i + 1][..i] == log[..i];
    }
  }

  /**
   * For a stored log the trace's runtime steps are its completion decisions and step verifications, its event
   * count is the next sequence number, and its request, gate and verification counts balance with the run.
   */
  lemma MetricsAgree(run: Text, log: seq<Event>, trace: RunTrace)
    requires Accepted(run, log) && Describes(run, log, trace)
    ensures trace.metrics.runtimeSteps ==
            Count(log, COMPLETION_ACCEPTED) + Count(log, COMPLETION_REJECTED) + StepVerifications(log)
    ensures trace.metrics.eventCount == StateOf(run, log).nextSequence
    ensures !trace.finalStatus.Cancelled? ==>
              && trace.metrics.toolRequestCount ==
                 Count(log, TOOL_AUTHORIZED) + trace.metrics.gateEscalationCount + Count(log, TOOL_DENIED)
                 + Bit(trace.finalStatus.ToolPending?)
              && Count(log, TOOL_SUCCEEDED) ==
                 trace.metrics.verificationSuccessCount + trace.metrics.verificationFailureCount
                 + Bit(trace.finalStatus.Verifying?)
  {
    hide StateOf, Accepted, Count, DurationMs, StepVerifications, RecordOf;
    assert log[..|log|] == log;
    TurnsAreCounted(run, log);
    AppliedBooks(run, log);
    if !StateOf(run, log).status.Cancelled? {
      FlowConservation(run, log);
    }
  }

  /** The positions of the events whose payload is of the kind. */
  function Positions(events: seq<Event>, kind: Kind): set<nat> {
    set i | 0 <= i < |events| && KindOf(events[i].payload) == kind
  }

  lemma {:induction false} CountIsPositions(events: seq<Event>, kind: Kind)
    ensures Count(events, kind) == |Positions(events, kind)|
  {
    hide KindOf;
    if events == [] {
      assert Positions(events, kind) == {};
    } else {
      var n := |events| - 1;
      CountIsPositions(events[..n], kind);
      PositionsSnoc(events[..n], events[n], kind);
      assert events == events[..n] + [events[n]];
    }
  }

  lemma PositionsSnoc(events: seq<Event>, e: Event, kind: Kind)
    ensures |Positions(events + [e], kind)| == |Positions(events, kind)| + Bit(KindOf(e.payload) == kind)
  {
    hide KindOf;
    var before, after := Positions(events, kind), Positions(events + [e], kind);
    forall i ensures i in after <==> i in before || (i == |events| && KindOf(e.payload) == kind) {
    }
    assert after == if KindOf(e.payload) == kind then before + {|events|} else before;
  }

  lemma PositionsOf(events: seq<Event>)
    ensures Positions(events, MODEL_ACTION_PROPOSED) == set i | 0 <= i < |events| && events[i].payload.ModelActionProposed?
    ensures Positions(events, TOOL_REQUESTED) == set i | 0 <= i < |events| && events[i].payload.ToolRequested?
    ensures Positions(events, TOOL_ESCALATED) == set i | 0 <= i < |events| && events[i].payload.ToolEscalated?
    ensures Positions(events, VERIFICATION_SUCCEEDED) == set i | 0 <= i < |events| && events[i].payload.VerificationSucceeded?
    ensures Positions(events, VERIFICATION_FAILED) == set i | 0 <= i < |events| && events[i].payload.VerificationFailed?
  {
    hide KindOf;
    forall i | 0 <= i < |events|
      ensures KindOf(events[i].payload) == MODEL_ACTION_PROPOSED <==> events[i].payload.ModelActionProposed?
      ensures KindOf(events[i].payload) == TOOL_REQUESTED <==> events[i].payload.ToolRequested?
      ensures KindOf(events[i].payload) == TOOL_ESCALATED <==> events[i].payload.ToolEscalated?
      ensures KindOf(events[i].payload) == VERIFICATION_SUCCEEDED <==> events[i].payload.VerificationSucceeded?
      ensures KindOf(events[i].payload) == VERIFICATION_FAILED <==> events[i].payload.VerificationFailed?
    {
      KindNames(events[i].payload);
    }
  }

  /**
   * Each count is the number of deliveries with that payload, and the duration is the whole milliseconds from the first
   * delivery to the last, or nothing where the clock went back.
   */
  lemma MetricsMeasure(run: Text, events: seq<Event>, trace: RunTrace)
    requires Describes(run, events, trace)
    ensures var m := trace.metrics;
            && m.modelActionCount == |set i | 0 <= i < |events| && events[i].payload.ModelActionProposed?|
            && m.toolRequestCount == |set i | 0 <= i < |events| && events[i].payload.ToolRequested?|
            && m.gateEscalationCount == |set i | 0 <= i < |events| && events[i].payload.ToolEscalated?|
            && m.verificationSuccessCount == |set i | 0 <= i < |events| && events[i].payload.VerificationSucceeded?|
            && m.verificationFailureCount == |set i | 0 <= i < |events| && events[i].payload.VerificationFailed?|
    ensures var d := trace.metrics.durationMs;
            if events == [] || events[|events| - 1].occurredAt < events[0].occurredAt then d == 0
            else 1000 * d <= events[|events| - 1].occurredAt - events[0].occurredAt < 1000 * (d + 1)
  {
    hide Count, Positions, StatusAfter, RecordsOf, StateOf;
    CountIsPositions(events, MODEL_ACTION_PROPOSED);
    CountIsPositions(events, TOOL_REQUESTED);
    CountIsPositions(events, TOOL_ESCALATED);
    CountIsPositions(events, VERIFICATION_SUCCEEDED);
    CountIsPositions(events, VERIFICATION_FAILED);
    PositionsOf(events);
  }

  // ----- Redelivery in the trace -----

  /** The deliveries of events that were delivered before. */
  function Repeats(deliveries: seq<Event>): seq<Event> {
    if deliveries == [] then []
    else
      var n := |deliveries| - 1;
      Repeats(deliveries[..n]) + if deliveries[n] in deliveries[..n] then [deliveries[n]] else []
  }

  /** The records of the first occurrences. */
  function FirstRecords(deliveries: seq<Event>, records: seq<TraceEvent>): seq<TraceEvent>
    requires |records| == |deliveries|
  {
    if deliveries == [] then []
    else
      var n := |deliveries| - 1;
      FirstRecords(deliveries[..n], records[..n]) + if deliveries[n] in deliveries[..n] then [] else [records[n]]
  }

  lemma {:induction false} CountSplits(deliveries: seq<Event>, kind: Kind)
    ensures Count(deliveries, kind) == Count(FirstOccurrences(deliveries), kind) + Count(Repeats(deliveries), kind)
    ensures |deliveries| == |FirstOccurrences(deliveries)| + |Repeats(deliveries)|
  {
    if deliveries != [] {
      hide Count;
      var n := |deliveries| - 1;
      var once, again, e := FirstOccurrences(deliveries[..n]), Repeats(deliveries[..n]), deliveries[n];
      CountSplits(deliveries[..n], kind);
      assert deliveries == deliveries[..n] + [e] && again + [] == again;
      CountSnoc(deliveries[..n], e, kind);
      CountSnoc(once, e, kind);
      CountSnoc(again, e, kind);
    }
  }

  lemma CountSnoc(log: seq<Event>, e: Event, kind: Kind)
    ensures Count(log + [e], kind) == Count(log, kind) + Bit(KindOf(e.payload) == kind)
  {
    hide KindOf;
    assert (log + [e])[..|log|] == log;
  }

  /** Without its last delivery, a replayable delivery replays; a repeated last one leaves the state as it was. */
  lemma LastDelivery(run: Text, deliveries: seq<Event>)
    requires ReplayRun(run, deliveries).Ok? && deliveries != []
    ensures var n := |deliveries| - 1;
            && ReplayRun(run, deliveries[..n]).Ok?
            && StateOf(run, FirstOccurrences(deliveries)) == StateOf(run, deliveries)
            && StateOf(run, FirstOccurrences(deliveries[..n])) == StateOf(run, deliveries[..n])
  {
    hide Reduce;
    RedeliveryIsInvisible(run, deliveries);
    RedeliveryIsInvisible(run, deliveries[..|deliveries| - 1]);
  }

  lemma {:induction false} FirstRecordsAre(run: Text, deliveries: seq<Event>, records: seq<TraceEvent>)
    requires ReplayRun(run, deliveries).Ok? && RecordsOf(run, deliveries, records)
    ensures RecordsOf(run, FirstOccurrences(deliveries), FirstRecords(deliveries, records))
  {
    hide KindOf, StateOf, Reduce;
    if deliveries != [] {
      var n := |deliveries| - 1;
      var before := deliveries[..n];
      LastDelivery(run, deliveries);
      forall i | 0 <= i < n ensures RecordOf(run, before, i, records[..n][i]) {
        assert RecordOf(run, deliveries, i, records[i]);
        assert before[..i] == deliveries[..i] && before[..i + 1] == deliveries[..i + 1];
      }
      FirstRecordsAre(run, before, records[..n]);
      if deliveries[n] !in before {
        OneMoreRecord(run, deliveries, records, FirstOccurrences(before), FirstRecords(before, records[..n]));
      } else {
        assert FirstRecords(before, records[..n]) + [] == FirstRecords(before, records[..n]);
      }
    }
  }

  lemma OneMoreRecord(run: Text, deliveries: seq<Event>, records: seq<TraceEvent>, once: seq<Event>, found: seq<TraceEvent>)
    requires |records| == |deliveries| > 0 && RecordOf(run, deliveries, |deliveries| - 1, records[|deliveries| - 1])
    requires RecordsOf(run, once, found)
    requires StateOf(run, once) == StateOf(run, deliveries[..|deliveries| - 1])
    requires StateOf(run, once + [deliveries[|deliveries| - 1]]) == StateOf(run, deliveries)
    ensures RecordsOf(run, once + [deliveries[|deliveries| - 1]], found + [records[|deliveries| - 1]])
  {
    hide KindOf, StateOf;
    var n := |deliveries| - 1;
    var all := once + [deliveries[n]];
    assert deliveries[..n + 1] == deliveries && all[..|once|] == once && all[..|once| + 1] == all;
    forall i | 0 <= i < |all| ensures RecordOf(run, all, i, (found + [records[n]])[i]) {
      if i < |once| {
        assert RecordOf(run, once, i, found[i]);
        assert all[..i] == once[..i] && all[..i + 1] == once[..i + 1];
      }
    }
  }

  lemma RepeatedRecord(run: Text, deliveries: seq<Event>, records: seq<TraceEvent>, i: nat)
    requires ReplayRun(run, deliveries).Ok? && RecordsOf(run, deliveries, records)
    requires i < |deliveries| && deliveries[i] in deliveries[..i]
    ensures records[i].before == records[i].after
  {
    hide KindOf, Reduce, Fold;
    assert RecordOf(run, deliveries, i, records[i]);
    FoldConcat(Initial(run), deliveries[..i + 1], deliveries[i + 1..]);
    assert deliveries[..i + 1] + deliveries[i + 1..] == deliveries;
    LastDelivery(run, deliveries[..i + 1]);
    assert deliveries[..i + 1][..i] == deliveries[..i];
  }

  lemma {:induction false} EndsOfOnce(deliveries: seq<Event>)
    requires deliveries != []
    ensures FirstOccurrences(deliveries) != [] && FirstOccurrences(deliveries)[0] == deliveries[0]
    ensures var n := |deliveries| - 1; var once := FirstOccurrences(deliveries);
            && (deliveries[n] !in deliveries[..n] ==> once[|once| - 1] == deliveries[n])
            && (|once| == 1 && deliveries[n] !in deliveries[..n] ==> n == 0)
  {
    if |deliveries| > 1 {
      EndsOfOnce(deliveries[..|deliveries| - 1]);
    }
  }

  lemma DurationOfOnce(deliveries: seq<Event>)
    ensures deliveries == [] || deliveries[|deliveries| - 1] !in deliveries[..|deliveries| - 1] ==>
              DurationMs(FirstOccurrences(deliveries)) == DurationMs(deliveries)
  {
    if deliveries != [] {
      EndsOfOnce(deliveries);
    }
  }

  lemma NextIsOnce(run: Text, deliveries: seq<Event>)
    requires ReplayRun(run, deliveries).Ok?
    ensures StateOf(run, deliveries).nextSequence == |FirstOccurrences(deliveries)|
  {
    hide Fold;
    RedeliveryIsInvisible(run, deliveries);
    ReplayBooks(run, deliveries);
  }

  /**
   * What redelivery shows in the trace: every repetition counts as an event and as one of its type, and has a record
   * of its own, in which nothing moves.  The final status and the steps are those of the first occurrences, and so
   * are the records once the repetitions are dropped; the duration is, unless a repetition came last.
   */
  lemma RedeliveryInTrace(run: Text, deliveries: seq<Event>, trace: RunTrace, once: RunTrace)
    requires ReplayRun(run, deliveries).Ok?
    requires Describes(run, deliveries, trace) && Describes(run, FirstOccurrences(deliveries), once)
    ensures trace.finalStatus == once.finalStatus && trace.metrics.runtimeSteps == once.metrics.runtimeSteps
    ensures var m, n, again := trace.metrics, once.metrics, Repeats(deliveries);
            && m.eventCount == n.eventCount + |again|
            && m.modelActionCount == n.modelActionCount + Count(again, MODEL_ACTION_PROPOSED)
            && m.toolRequestCount == n.toolRequestCount + Count(again, TOOL_REQUESTED)
            && m.gateEscalationCount == n.gateEscalationCount + Count(again, TOOL_ESCALATED)
            && m.verificationSuccessCount == n.verificationSuccessCount + Count(again, VERIFICATION_SUCCEEDED)
            && m.verificationFailureCount == n.verificationFailureCount + Count(again, VERIFICATION_FAILED)
    ensures once.records == FirstRecords(deliveries, trace.records)
    ensures forall i :: 0 <= i < |deliveries| && deliveries[i] in deliveries[..i] ==>
              trace.records[i].before == trace.records[i].after
    ensures deliveries == [] || deliveries[|deliveries| - 1] !in deliveries[..|deliveries| - 1] ==>
              trace.metrics.durationMs == once.metrics.durationMs
    ensures once.metrics.eventCount == StateOf(run, deliveries).nextSequence
  {
    hide Fold, Count, KindOf, RecordOf, Reduce, DurationMs, FirstRecords, FirstOccurrences, Repeats, Booked,
         AppliedEvents;
    CountsOfRepeats(deliveries);
    FirstRecordsAre(run, deliveries, trace.records);
    RecordsAreUnique(run, FirstOccurrences(deliveries), once.records, FirstRecords(deliveries, trace.records));
    forall i | 0 <= i < |deliveries| && deliveries[i] in deliveries[..i]
      ensures trace.records[i].before == trace.records[i].after
    {
      RepeatedRecord(run, deliveries, trace.records, i);
    }
    DurationOfOnce(deliveries);
    RedeliveryIsInvisible(run, deliveries);
    NextIsOnce(run, deliveries);
    assert deliveries[..|deliveries|] == deliveries;
    assert FirstOccurrences(deliveries)[..|FirstOccurrences(deliveries)|] == FirstOccurrences(deliveries);
  }

  lemma CountsOfRepeats(deliveries: seq<Event>)
    ensures |deliveries| == |FirstOccurrences(deliveries)| + |Repeats(deliveries)|
    ensures forall kind :: Count(deliveries, kind) ==
                           Count(FirstOccurrences(deliveries), kind) + Count(Repeats(deliveries), kind)
  {
    hide Count;
    CountSplits(deliveries, RUN_CREATED);
    forall kind
      ensures Count(deliveries, kind) == Count(FirstOccurrences(deliveries), kind) + Count(Repeats(deliveries), kind)
    {
      CountSplits(deliveries, kind);
    }
  }

  lemma RecordsAreUnique(run: Text, events: seq<Event>, a: seq<TraceEvent>, b: seq<TraceEvent>)
    requires RecordsOf(run, events, a) && RecordsOf(run, events, b)
    ensures a == b
  {
    hide KindOf, StateOf;
    forall i | 0 <= i < |a| ensures a[i] == b[i] {
      assert RecordOf(run, events, i, a[i]) && RecordOf(run, events, i, b[i]);
    }
  }
}
