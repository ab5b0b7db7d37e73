/** How often the model adapter is crossed, over the whole life of a run (model_adapter.py, fake_agent.py:387-402). */
module AdapterCalls {
  import opened Values
  import opened Events
  import opened Replay
  import opened Lifecycle
  import opened Protocol
  import opened Storages

  datatype AdapterCall = AdapterCall(runId: Text, turn: int)

  /** The adapter, with a witness of its calls that outlives every process. */
  class ModelAdapter {
    const reply: ModelInput -> AdapterReply
    ghost var calls: seq<AdapterCall>

    constructor (reply: ModelInput -> AdapterReply, ghost calls: seq<AdapterCall>)
      ensures this.reply == reply && this.calls == calls
    {
      this.reply := reply;
      this.calls := calls;
    }

    method NextAction(context: ModelInput) returns (answer: AdapterReply)
      modifies `calls
      ensures answer == reply(context)
      ensures calls == old(calls) + [AdapterCall(context.runId, context.turnIndex)]
    {
      calls := calls + [AdapterCall(context.runId, context.turnIndex)];
      return reply(context);
    }
  }

  /** Each run is asked for strictly later turns only, and never before the intent to ask is durable. */
  ghost predicate CallsInOrder(calls: seq<AdapterCall>, st: Storage) {
    && (forall i :: 0 <= i < |calls| ==>
          0 <= calls[i].turn <= LatestAskedTurn(calls[i].runId, LogIn(st, calls[i].runId)))
    && (forall i, j :: 0 <= i < j < |calls| && calls[i].runId == calls[j].runId ==> calls[i].turn < calls[j].turn)
  }

  lemma {:induction false} AskedTurnGrows(run: Text, log: seq<Event>, n: nat)
    requires n <= |log|
    ensures LatestAskedTurn(run, log[..n]) <= LatestAskedTurn(run, log)
    decreases |log|
  {
    hide Accepted, StateOf;
    if n < |log| {
      var m := |log| - 1;
      assert log[..m][..n] == log[..n];
      AskedTurnGrows(run, log[..m], n);
      if Accepted(run, log) {
        AcceptedPrefix(run, log, m);
        EachTurnAskedOnce(run, log[..m]);
      }
    } else {
      assert log[..n] == log;
    }
  }

  /** No turn is asked for beyond the budget. */
  lemma {:induction false} AskedWithinBudget(run: Text, log: seq<Event>)
    requires Accepted(run, log)
    ensures var s := StateOf(run, log); s.maxSteps.Some? ==> LatestAskedTurn(run, log) < s.maxSteps.value
  {
    if log != [] {
      hide Accepted, StateOf, Moves, Shape;
      var n := |log| - 1;
      LastMove(run, log);
      AskedWithinBudget(run, log[..n]);
      ReachableShape(run, log);
      if log[n].payload.RunCreated? {
        CreatedFirst(run, log);
      }
    }
  }

  lemma CreatedFirst(run: Text, log: seq<Event>)
    requires Accepted(run, log) && log != [] && log[|log| - 1].payload.RunCreated?
    ensures LatestAskedTurn(run, log) <= 0
  {
    hide Accepted, StateOf;
    var n := |log| - 1;
    LastMove(run, log);
    ReachableShape(run, log[..n]);
    EachTurnAskedOnce(run, log[..n]);
  }

  /** Whatever an operation on a run appends, the calls so far stay in order. */
  lemma CallsStay(run: Text, calls: seq<AdapterCall>, a: Storage, b: Storage)
    requires CallsInOrder(calls, a) && Touches(run, a, b)
    ensures CallsInOrder(calls, b)
  {
    hide LogIn, Accepted, LatestAskedTurn, OnlyOwnEffects;
    AskedTurnGrows(run, LogIn(b, run), |LogIn(a, run)|);
    assert LogIn(b, run)[..|LogIn(a, run)|] == LogIn(a, run);
  }

  /** The call that follows a durable intent is for a turn that was never asked for before. */
  lemma CallIsNew(run: Text, calls: seq<AdapterCall>, a: Storage, b: Storage, e: Event)
    requires CallsInOrder(calls, a) && Touches(run, a, b)
    requires Accepted(run, LogIn(a, run)) && StateOf(run, LogIn(a, run)).status.Ready?
    requires LogIn(b, run) == LogIn(a, run) + [e] && e.payload.ModelActionRequested? && Accepted(run, LogIn(b, run))
    ensures CallsInOrder(calls + [AdapterCall(run, StateOf(run, LogIn(a, run)).turnIndex)], b)
  {
    hide LogIn, Accepted, StateOf, OnlyOwnEffects;
    EachTurnAskedOnce(run, LogIn(a, run));
    assert LogIn(b, run)[..|LogIn(a, run)|] == LogIn(a, run);
  }

  /** How often the adapter was called for the run. */
  function CallsFor(calls: seq<AdapterCall>, run: Text): nat {
    if calls == [] then 0
    else CallsFor(calls[..|calls| - 1], run) + Bit(calls[|calls| - 1].runId == run)
  }

  lemma {:induction false} CountedByTurn(calls: seq<AdapterCall>, run: Text, bound: int)
    requires -1 <= bound
    requires forall i :: 0 <= i < |calls| && calls[i].runId == run ==> 0 <= calls[i].turn <= bound
    requires forall i, j :: 0 <= i < j < |calls| && calls[i].runId == run == calls[j].runId ==> calls[i].turn < calls[j].turn
    ensures CallsFor(calls, run) <= bound + 1
  {
    if calls != [] {
      var n := |calls| - 1;
      CountedByTurn(calls[..n], run, if calls[n].runId == run then calls[n].turn - 1 else bound);
    }
  }

  /**
   * Over the whole life of a run, across any crashes and restarts, the adapter is called at most once per
   * turn and at most max_steps times.
   */
  lemma CallsWithinBudget(run: Text, calls: seq<AdapterCall>, st: Storage)
    requires CallsInOrder(calls, st) && Accepted(run, LogIn(st, run))
    requires StateOf(run, LogIn(st, run)).maxSteps.Some?
    ensures CallsFor(calls, run) <= StateOf(run, LogIn(st, run)).maxSteps.value
    ensures forall i, j :: 0 <= i < j < |calls| && calls[i].runId == calls[j].runId ==> calls[i].turn != calls[j].turn
  {
    hide LogIn, Accepted, StateOf;
    var log := LogIn(st, run);
    AskedWithinBudget(run, log);
    LatestAskedIsTurn(run, log);
    CountedByTurn(calls, run, LatestAskedTurn(run, log));
  }

  lemma {:induction false} LatestAskedIsTurn(run: Text, log: seq<Event>)
    ensures -1 <= LatestAskedTurn(run, log)
  {
    if log != [] {
      LatestAskedIsTurn(run, log[..|log| - 1]);
    }
  }
}
