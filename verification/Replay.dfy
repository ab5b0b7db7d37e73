/** Folding events into state (src/agent_runtime_lab/domain/replay.py), and what redelivery cannot change. */
module Replay {
  import opened Values
  import opened Events
  import opened RunStates
  import opened Reducer

  /** The left fold of Reduce; the first error ends it. */
  function Fold(s: RunState, events: seq<Event>): Result<RunState, ReduceError> {
    if events == [] then Ok(s)
    else
      match Fold(s, events[..|events| - 1])
      case Err(error) => Err(error)
      case Ok(t) => Reduce(t, events[|events| - 1])
  }

  function ReplayRun(run: Text, events: seq<Event>): Result<RunState, ReduceError> {
    Fold(Initial(run), events)
  }

  lemma FoldSnoc(s: RunState, events: seq<Event>, e: Event)
    ensures Fold(s, events + [e]) ==
            (match Fold(s, events) case Err(error) => Err(error) case Ok(t) => Reduce(t, e))
  {
    assert (events + [e])[..|events|] == events;
  }

  lemma {:induction false} FoldConcat(s: RunState, head: seq<Event>, tail: seq<Event>)
    ensures Fold(s, head + tail) ==
            (match Fold(s, head) case Err(error) => Err(error) case Ok(t) => Fold(t, tail))
  {
    if tail == [] {
      assert head + tail == head;
    } else {
      var n := |tail| - 1;
      FoldConcat(s, head, tail[..n]);
      assert head + tail == (head + tail[..n]) + [tail[n]];
      FoldSnoc(s, head + tail[..n], tail[n]);
    }
  }

  lemma PrefixAccepted(s: RunState, events: seq<Event>, n: nat)
    requires n <= |events| && Fold(s, events).Ok?
    ensures Fold(s, events[..n]).Ok?
  {
    hide Reduce;
    FoldConcat(s, events[..n], events[n..]);
    assert events[..n] + events[n..] == events;
  }

  /** `replay_tail`: the loop over the remaining events. */
  method ReplayTail(start: RunState, events: seq<Event>) returns (r: Result<RunState, ReduceError>)
    ensures r == Fold(start, events)
  {
    hide Reduce;
    var state := start;
    for i := 0 to |events|
      invariant Fold(start, events[..i]) == Ok(state)
    {
      assert events[..i + 1] == events[..i] + [events[i]];
      FoldSnoc(start, events[..i], events[i]);
      var next := Reduce(state, events[i]);
      if next.Err? {
        FoldConcat(start, events[..i + 1], events[i + 1..]);
        assert events[..i + 1] + events[i + 1..] == events;
        return next;
      }
      state := next.value;
    }
    assert events[..|events|] == events;
    return Ok(state);
  }

  // ----- The bookkeeping of reachable states -----

  /** The applied entries are the applied events themselves: own run, position as sequence, no identity twice. */
  ghost predicate Booked(s: RunState) {
    && s.nextSequence == |s.applied|
    && (forall i :: 0 <= i < |s.applied| ==>
          var (id, seal) := s.applied[i];
          && seal.event.eventId == id
          && seal.event.runId == s.runId
          && seal.event.sequence == i)
    && (forall i, j :: 0 <= i < j < |s.applied| ==> s.applied[i].0 != s.applied[j].0)
  }

  function AppliedEvents(s: RunState): (events: seq<Event>)
    ensures |events| == |s.applied|
    ensures forall i :: 0 <= i < |events| ==> events[i] == s.applied[i].1.event
  {
    seq(|s.applied|, i requires 0 <= i < |s.applied| => s.applied[i].1.event)
  }

  /** A transition leaves the bookkeeping alone, so Advance adds exactly one entry. */
  lemma TransitionKeepsBooks(s: RunState, e: Event)
    requires Transition(s, e).Some?
    ensures var t := Transition(s, e).value;
            t.runId == s.runId && t.nextSequence == s.nextSequence && t.applied == s.applied
  {
  }

  /** The three things a delivery can do: be refused, be a known event, or extend the books by one. */
  lemma ReduceBooks(s: RunState, e: Event)
    requires Booked(s) && Reduce(s, e).Ok?
    ensures var t := Reduce(s, e).value;
            && Booked(t)
            && (e in AppliedEvents(s) ==> t == s)
            && (e !in AppliedEvents(s) ==>
                  && !IsTerminal(s.status) && e.sequence == |s.applied|
                  && Transition(s, e).Some? && t == Advance(Transition(s, e).value, e)
                  && AppliedEvents(t) == AppliedEvents(s) + [e])
  {
    var t := Reduce(s, e).value;
    var known := FingerprintFor(s.applied, e.eventId);
    if known.Some? {
      assert (e.eventId, known.value) in s.applied;
      assert known.value.event == e;
      var k :| 0 <= k < |s.applied| && s.applied[k] == (e.eventId, known.value);
      assert AppliedEvents(s)[k] == e;
    } else {
      TransitionKeepsBooks(s, e);
      forall k | 0 <= k < |s.applied| ensures AppliedEvents(s)[k] != e {
        assert s.applied[k].0 != e.eventId;
      }
    }
  }

  /** Some applied event carries the identity. */
  ghost predicate HasApplied(s: RunState, id: Text) {
    exists k :: 0 <= k < |s.applied| && s.applied[k].0 == id
  }

  /**
   * What becomes of any delivery, in the order in which it is judged: an exact redelivery is taken and changes
   * nothing, whatever the run's status; a used identity, a terminal run, a gap and an impossible move are told apart.
   */
  lemma ReduceDecides(s: RunState, e: Event)
    requires Booked(s)
    ensures e.runId != s.runId ==> Reduce(s, e) == Err(RunMismatch)
    ensures e.runId == s.runId && e in AppliedEvents(s) ==> Reduce(s, e) == Ok(s)
    ensures e.runId == s.runId && e !in AppliedEvents(s) ==>
              if HasApplied(s, e.eventId) then Reduce(s, e) == Err(DuplicateEventConflict)
              else if IsTerminal(s.status) then Reduce(s, e) == Err(TerminalState)
              else if e.sequence != |s.applied| then Reduce(s, e) == Err(SequenceMismatch)
              else if Transition(s, e).None? then Reduce(s, e) == Err(InvalidTransition)
              else Reduce(s, e) == Ok(Advance(Transition(s, e).value, e))
  {
    hide Transition, Advance;
    if e in AppliedEvents(s) {
      var j :| 0 <= j < |s.applied| && AppliedEvents(s)[j] == e;
      assert s.applied[j].0 == e.eventId && s.applied[j].1 == Fingerprint(e);
    }
    var known := FingerprintFor(s.applied, e.eventId);
    if known.Some? {
      assert (e.eventId, known.value) in s.applied;
      var k :| 0 <= k < |s.applied| && s.applied[k] == (e.eventId, known.value);
      assert AppliedEvents(s)[k] == known.value.event;
    }
  }

  /**
   * A delivery is taken if and only if it was applied before, or its identity is new, the run is live, it is the
   * next in sequence and its transition exists.
   */
  lemma ReduceAcceptsExactly(s: RunState, e: Event)
    requires Booked(s)
    ensures Reduce(s, e).Ok? <==>
              && e.runId == s.runId
              && (|| e in AppliedEvents(s)
                  || (&& !HasApplied(s, e.eventId) && !IsTerminal(s.status)
                      && e.sequence == |s.applied| && Transition(s, e).Some?))
  {
    hide Reduce, Transition, Advance, Booked, HasApplied;
    ReduceDecides(s, e);
  }

  lemma {:induction false} ReplayBooks(run: Text, deliveries: seq<Event>)
    requires ReplayRun(run, deliveries).Ok?
    ensures Booked(ReplayRun(run, deliveries).value) && ReplayRun(run, deliveries).value.runId == run
  {
    if deliveries != [] {
      var n := |deliveries| - 1;
      ReplayBooks(run, deliveries[..n]);
      var s := ReplayRun(run, deliveries[..n]).value;
      ReduceBooks(s, deliveries[n]);
      if deliveries[n] !in AppliedEvents(s) {
        TransitionKeepsBooks(s, deliveries[n]);
      }
    }
  }

  // ----- Redelivery -----

  /** The delivered events without the repetitions. */
  function FirstOccurrences(deliveries: seq<Event>): seq<Event> {
    if deliveries == [] then []
    else
      var before := deliveries[..|deliveries| - 1];
      var e := deliveries[|deliveries| - 1];
      if e in before then FirstOccurrences(before) else FirstOccurrences(before) + [e]
  }

  /** Each event sits at the position its sequence number names. */
  ghost predicate Dense(events: seq<Event>) {
    forall i :: 0 <= i < |events| ==> events[i].sequence == i
  }

  lemma {:induction false} FirstOccurrencesSameSet(deliveries: seq<Event>, e: Event)
    ensures e in FirstOccurrences(deliveries) <==> e in deliveries
  {
    if deliveries != [] {
      var n := |deliveries| - 1;
      FirstOccurrencesSameSet(deliveries[..n], e);
      assert deliveries == deliveries[..n] + [deliveries[n]];
    }
  }

  /**
   * An accepted delivery with exact redeliveries amounts to its first occurrences, delivered once each,
   * and their sequence numbers are exactly 0..n-1.
   */
  lemma {:induction false} RedeliveryIsInvisible(run: Text, deliveries: seq<Event>)
    requires ReplayRun(run, deliveries).Ok?
    ensures var once := FirstOccurrences(deliveries);
            && ReplayRun(run, once) == ReplayRun(run, deliveries)
            && Dense(once)
            && AppliedEvents(ReplayRun(run, deliveries).value) == once
  {
    if deliveries != [] {
      var n := |deliveries| - 1;
      var before, e := deliveries[..n], deliveries[n];
      RedeliveryIsInvisible(run, before);
      ReplayBooks(run, before);
      var s := ReplayRun(run, before).value;
      ReduceBooks(s, e);
      FirstOccurrencesSameSet(before, e);
      FoldSnoc(Initial(run), FirstOccurrences(before), e);
    }
  }

  /** One identity names one event among the deliveries. */
  ghost predicate OneEventEach(deliveries: seq<Event>) {
    forall i, j :: 0 <= i < |deliveries| && 0 <= j < |deliveries| && deliveries[i].eventId == deliveries[j].eventId ==>
      deliveries[i] == deliveries[j]
  }

  /** What was applied once may be delivered again: replay of the first occurrences is replay of the deliveries. */
  lemma {:induction false} RedeliveryIsAccepted(run: Text, deliveries: seq<Event>)
    requires ReplayRun(run, FirstOccurrences(deliveries)).Ok?
    ensures ReplayRun(run, deliveries) == ReplayRun(run, FirstOccurrences(deliveries))
  {
    if deliveries != [] {
      hide Reduce;
      var n := |deliveries| - 1;
      var before, e := deliveries[..n], deliveries[n];
      var once := FirstOccurrences(before);
      if e !in before {
        FoldConcat(Initial(run), once, [e]);
      }
      RedeliveryIsAccepted(run, before);
      FoldSnoc(Initial(run), once, e);
      if e in before {
        RedeliveryIsInvisible(run, before);
        ReplayBooks(run, before);
        FirstOccurrencesSameSet(before, e);
        OwnEvents(ReplayRun(run, before).value, e);
        ReduceDecides(ReplayRun(run, before).value, e);
      }
    }
  }

  lemma OwnEvents(s: RunState, e: Event)
    requires Booked(s) && e in AppliedEvents(s)
    ensures e.runId == s.runId
  {
  }

  /**
   * A delivery is accepted if and only if its first occurrences are, delivered once each: repetitions neither help nor
   * hurt, and two different events of one identity are never both accepted.
   */
  lemma DeliveryAcceptsExactly(run: Text, deliveries: seq<Event>)
    ensures ReplayRun(run, deliveries).Ok? <==> ReplayRun(run, FirstOccurrences(deliveries)).Ok?
    ensures ReplayRun(run, deliveries).Ok? ==> OneEventEach(deliveries)
  {
    hide Fold, FirstOccurrences;
    if ReplayRun(run, FirstOccurrences(deliveries)).Ok? {
      RedeliveryIsAccepted(run, deliveries);
    }
    if ReplayRun(run, deliveries).Ok? {
      RedeliveryIsInvisible(run, deliveries);
      ReplayBooks(run, deliveries);
      var s := ReplayRun(run, deliveries).value;
      forall i, j | 0 <= i < |deliveries| && 0 <= j < |deliveries| && deliveries[i].eventId == deliveries[j].eventId
        ensures deliveries[i] == deliveries[j]
      {
        FirstOccurrencesSameSet(deliveries, deliveries[i]);
        FirstOccurrencesSameSet(deliveries, deliveries[j]);
        SameIdentity(s, deliveries[i], deliveries[j]);
      }
    }
  }

  lemma SameIdentity(s: RunState, a: Event, b: Event)
    requires Booked(s) && a in AppliedEvents(s) && b in AppliedEvents(s) && a.eventId == b.eventId
    ensures a == b
  {
    var i :| 0 <= i < |s.applied| && AppliedEvents(s)[i] == a;
    var j :| 0 <= j < |s.applied| && AppliedEvents(s)[j] == b;
    assert s.applied[i].0 == s.applied[j].0;
  }

  /** Two accepted deliveries of the same events, in whatever order and multiplicity, end in one state. */
  lemma DeliveryConfluence(run: Text, left: seq<Event>, right: seq<Event>)
    requires ReplayRun(run, left).Ok? && ReplayRun(run, right).Ok?
    requires forall e :: e in left <==> e in right
    ensures ReplayRun(run, left) == ReplayRun(run, right)
  {
    RedeliveryIsInvisible(run, left);
    RedeliveryIsInvisible(run, right);
    var a, b := FirstOccurrences(left), FirstOccurrences(right);
    forall e ensures e in a <==> e in b {
      FirstOccurrencesSameSet(left, e);
      FirstOccurrencesSameSet(right, e);
    }
    forall i | 0 <= i < |a| ensures i < |b| && b[i] == a[i] {
      assert a[i] in b;
    }
    forall i | 0 <= i < |b| ensures i < |a| && a[i] == b[i] {
      assert b[i] in a;
    }
    assert a == b;
  }

  // ----- Dense accepted logs, as the event store keeps them -----

  /** A stored log of the run: dense, and accepted by the reducer. */
  ghost predicate Accepted(run: Text, log: seq<Event>) {
    Dense(log) && ReplayRun(run, log).Ok?
  }

  ghost function StateOf(run: Text, log: seq<Event>): RunState {
    match ReplayRun(run, log)
    case Ok(s) => s
    case Err(_) => Initial(run)
  }

  /** Every prefix of an accepted log is accepted, and its last event made one real transition. */
  lemma LastStep(run: Text, log: seq<Event>)
    requires Accepted(run, log) && log != []
    ensures var n := |log| - 1; var s := StateOf(run, log[..n]);
            && Accepted(run, log[..n])
            && !IsTerminal(s.status)
            && Transition(s, log[n]).Some?
            && StateOf(run, log) == Advance(Transition(s, log[n]).value, log[n])
  {
    var n := |log| - 1;
    var s := StateOf(run, log[..n]);
    ReplayBooks(run, log[..n]);
    AppliedIsLog(run, log[..n]);
    ReduceBooks(s, log[n]);
    assert log[n] !in log[..n];
  }

  lemma {:induction false} AppliedIsLog(run: Text, log: seq<Event>)
    requires Accepted(run, log)
    ensures AppliedEvents(StateOf(run, log)) == log
  {
    if log != [] {
      var n := |log| - 1;
      AppliedIsLog(run, log[..n]);
      ReplayBooks(run, log[..n]);
      var s := StateOf(run, log[..n]);
      ReduceBooks(s, log[n]);
      assert log[n] !in log[..n];
    }
  }

  lemma AcceptedPrefix(run: Text, log: seq<Event>, n: nat)
    requires Accepted(run, log) && n <= |log|
    ensures Accepted(run, log[..n])
  {
    PrefixAccepted(Initial(run), log, n);
  }

  /** A new event at the end of an accepted log is accepted exactly when the run is live and the transition exists. */
  lemma NewEventDecides(run: Text, log: seq<Event>, e: Event)
    requires Accepted(run, log) && e.runId == run && e.sequence == |log|
    requires forall i :: 0 <= i < |log| ==> log[i].eventId != e.eventId
    ensures Accepted(run, log + [e]) <==>
              !IsTerminal(StateOf(run, log).status) && Transition(StateOf(run, log), e).Some?
  {
    hide Transition;
    var s := StateOf(run, log);
    AppliedIsLog(run, log);
    ReplayBooks(run, log);
    forall i | 0 <= i < |s.applied| ensures s.applied[i].0 != e.eventId {
      assert log[i].eventId == s.applied[i].0;
    }
    FoldSnoc(Initial(run), log, e);
  }
}
