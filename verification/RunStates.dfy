/** State derived only from events (src/agent_runtime_lab/domain/state.py). */
module RunStates {
  import opened Values
  import opened Events

  datatype Status =
    | New | Created | Ready | ModelPending | ActionPending | ToolPending | AwaitingGate
    | ToolReady | ToolRunning | Verifying | Paused | Completed | Failed | Cancelled

  datatype RunState = RunState(
    runId: Text,
    status: Status,
    nextSequence: nat,
    turnIndex: nat,
    maxSteps: Option<int>,
    activeStepId: Option<Text>,
    activeModelInvocationId: Option<Text>,
    activeModelActionEventId: Option<Text>,
    activeToolCallId: Option<Text>,
    activeGateProposalDigest: Option<Text>,
    activeGateRevision: Option<int>,
    activeGateMode: Option<Text>,
    activeGateAttempts: int,
    activeGateMaxAttempts: Option<int>,
    failureReason: Option<Text>,
    applied: seq<(Text, Fingerprint)>)

  function Initial(run: Text): RunState {
    RunState(run, New, 0, 0, None, None, None, None, None, None, None, None, 0, None, None, [])
  }

  predicate IsTerminal(status: Status) {
    status.Completed? || status.Failed? || status.Cancelled?
  }

  /** The linear search of `fingerprint_for`: the first entry that carries the identity. */
  function FingerprintFor(applied: seq<(Text, Fingerprint)>, id: Text): (found: Option<Fingerprint>)
    ensures found.Some? ==> (id, found.value) in applied
    ensures found.None? ==> forall k :: 0 <= k < |applied| ==> applied[k].0 != id
  {
    if applied == [] then None
    else if applied[0].0 == id then Some(applied[0].1)
    else FingerprintFor(applied[1..], id)
  }
}
