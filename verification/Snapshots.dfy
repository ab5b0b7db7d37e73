/** The snapshot codec (src/agent_runtime_lab/persistence/snapshots.py), over JSON trees. */
module Snapshots {
  import opened Values
  import opened Events
  import opened RunStates

  datatype Field =
    | ACTIVE_GATE_ATTEMPTS | ACTIVE_GATE_MAX_ATTEMPTS | ACTIVE_GATE_MODE | ACTIVE_GATE_PROPOSAL_DIGEST
    | ACTIVE_GATE_REVISION | ACTIVE_MODEL_ACTION_EVENT_ID | ACTIVE_MODEL_INVOCATION_ID | ACTIVE_STEP_ID
    | ACTIVE_TOOL_CALL_ID | APPLIED_EVENT_FINGERPRINTS | FAILURE_REASON | MAX_STEPS | NEXT_SEQUENCE
    | RUN_ID | STATUS | TURN_INDEX | UNEXPECTED(name: string)

  /**
   * A decoded JSON document; JStatus and JSeal are strings that name a status or a fingerprint, and JMalformed is
   * a text that is no document.
   */
  datatype Json =
    | JMalformed(characters: string)
    | JNull
    | JNumber(number: int)
    | JText(text: Text)
    | JStatus(status: Status)
    | JSeal(seal: Fingerprint)
    | JArray(items: seq<Json>)
    | JObject(fields: map<Field, Json>)

  const SNAPSHOT_SCHEMA_VERSION := 2

  const EXPECTED_FIELDS: set<Field> := {
    ACTIVE_GATE_ATTEMPTS, ACTIVE_GATE_MAX_ATTEMPTS, ACTIVE_GATE_MODE, ACTIVE_GATE_PROPOSAL_DIGEST,
    ACTIVE_GATE_REVISION, ACTIVE_MODEL_ACTION_EVENT_ID, ACTIVE_MODEL_INVOCATION_ID, ACTIVE_STEP_ID,
    ACTIVE_TOOL_CALL_ID, APPLIED_EVENT_FINGERPRINTS, FAILURE_REASON, MAX_STEPS, NEXT_SEQUENCE,
    RUN_ID, STATUS, TURN_INDEX}

  function EncodeText(t: Option<Text>): Json {
    if t.None? then JNull else JText(t.value)
  }

  function EncodeNumber(n: Option<int>): Json {
    if n.None? then JNull else JNumber(n.value)
  }

  function EncodeEntry(entry: (Text, Fingerprint)): Json {
    JArray([JText(entry.0), JSeal(entry.1)])
  }

  function EncodeApplied(applied: seq<(Text, Fingerprint)>): Json {
    JArray(seq(|applied|, i requires 0 <= i < |applied| => EncodeEntry(applied[i])))
  }

  function EncodeState(s: RunState): Json {
    JObject(map[
      ACTIVE_GATE_ATTEMPTS := JNumber(s.activeGateAttempts),
      ACTIVE_GATE_MAX_ATTEMPTS := EncodeNumber(s.activeGateMaxAttempts),
      ACTIVE_GATE_MODE := EncodeText(s.activeGateMode),
      ACTIVE_GATE_PROPOSAL_DIGEST := EncodeText(s.activeGateProposalDigest),
      ACTIVE_GATE_REVISION := EncodeNumber(s.activeGateRevision),
      ACTIVE_MODEL_ACTION_EVENT_ID := EncodeText(s.activeModelActionEventId),
      ACTIVE_MODEL_INVOCATION_ID := EncodeText(s.activeModelInvocationId),
      ACTIVE_STEP_ID := EncodeText(s.activeStepId),
      ACTIVE_TOOL_CALL_ID := EncodeText(s.activeToolCallId),
      APPLIED_EVENT_FINGERPRINTS := EncodeApplied(s.applied),
      FAILURE_REASON := EncodeText(s.failureReason),
      MAX_STEPS := EncodeNumber(s.maxSteps),
      NEXT_SEQUENCE := JNumber(s.nextSequence),
      RUN_ID := JText(s.runId),
      STATUS := JStatus(s.status),
      TURN_INDEX := JNumber(s.turnIndex)])
  }

  predicate IsOptionalText(j: Json) { j.JNull? || j.JText? }

  predicate IsOptionalNumber(j: Json) { j.JNull? || j.JNumber? }

  predicate IsEntry(j: Json) {
    j.JArray? && |j.items| == 2 && j.items[0].JText? && j.items[1].JSeal?
  }

  predicate IsApplied(j: Json) {
    j.JArray? && forall i :: 0 <= i < |j.items| ==> IsEntry(j.items[i])
  }

  function DecodeText(j: Json): Option<Text> { if j.JText? then Some(j.text) else None }

  function DecodeNumber(j: Json): Option<int> { if j.JNumber? then Some(j.number) else None }

  function DecodeApplied(j: Json): seq<(Text, Fingerprint)>
    requires IsApplied(j)
  {
    seq(|j.items|, i requires 0 <= i < |j.items| => (j.items[i].items[0].text, j.items[i].items[1].seal))
  }

  /** The field set, and the checks of `decode_state` and of `RunState.__post_init__`. */
  predicate WellFormed(fields: map<Field, Json>) {
    && fields.Keys == EXPECTED_FIELDS
    && IsApplied(fields[APPLIED_EVENT_FINGERPRINTS])
    && fields[RUN_ID].JText? && fields[RUN_ID].text != Raw("")
    && fields[STATUS].JStatus?
    && fields[NEXT_SEQUENCE].JNumber? && fields[NEXT_SEQUENCE].number >= 0
    && fields[TURN_INDEX].JNumber? && fields[TURN_INDEX].number >= 0
    && IsOptionalNumber(fields[MAX_STEPS]) && (fields[MAX_STEPS].JNumber? ==> fields[MAX_STEPS].number >= 1)
    && IsOptionalText(fields[ACTIVE_STEP_ID])
    && IsOptionalText(fields[ACTIVE_MODEL_INVOCATION_ID])
    && IsOptionalText(fields[ACTIVE_MODEL_ACTION_EVENT_ID])
    && IsOptionalText(fields[ACTIVE_TOOL_CALL_ID])
    && IsOptionalText(fields[ACTIVE_GATE_PROPOSAL_DIGEST])
    && IsOptionalNumber(fields[ACTIVE_GATE_REVISION])
    && IsOptionalText(fields[ACTIVE_GATE_MODE])
    && fields[ACTIVE_GATE_ATTEMPTS].JNumber?
    && IsOptionalNumber(fields[ACTIVE_GATE_MAX_ATTEMPTS])
    && IsOptionalText(fields[FAILURE_REASON])
  }

  function DecodeState(document: Json): Option<RunState> {
    if !document.JObject? || !WellFormed(document.fields) then None
    else
      var f := document.fields;
      Some(RunState(
             f[RUN_ID].text, f[STATUS].status, f[NEXT_SEQUENCE].number, f[TURN_INDEX].number,
             DecodeNumber(f[MAX_STEPS]),
             DecodeText(f[ACTIVE_STEP_ID]), DecodeText(f[ACTIVE_MODEL_INVOCATION_ID]),
             DecodeText(f[ACTIVE_MODEL_ACTION_EVENT_ID]), DecodeText(f[ACTIVE_TOOL_CALL_ID]),
             DecodeText(f[ACTIVE_GATE_PROPOSAL_DIGEST]), DecodeNumber(f[ACTIVE_GATE_REVISION]),
             DecodeText(f[ACTIVE_GATE_MODE]), f[ACTIVE_GATE_ATTEMPTS].number,
             DecodeNumber(f[ACTIVE_GATE_MAX_ATTEMPTS]), DecodeText(f[FAILURE_REASON]),
             DecodeApplied(f[APPLIED_EVENT_FINGERPRINTS])))
  }

  lemma AppliedRoundTrip(applied: seq<(Text, Fingerprint)>)
    ensures IsApplied(EncodeApplied(applied)) && DecodeApplied(EncodeApplied(applied)) == applied
  {
  }

  lemma EncodedFields(s: RunState)
    ensures EncodeState(s).JObject? && EncodeState(s).fields.Keys == EXPECTED_FIELDS
  {
    hide EncodeText, EncodeNumber, EncodeApplied;
  }

  lemma EncodedGate(s: RunState)
    requires EncodeState(s).JObject? && EncodeState(s).fields.Keys == EXPECTED_FIELDS
    ensures var j := EncodeState(s);
            && j.fields[ACTIVE_GATE_ATTEMPTS] == JNumber(s.activeGateAttempts)
            && j.fields[ACTIVE_GATE_MAX_ATTEMPTS] == EncodeNumber(s.activeGateMaxAttempts)
            && j.fields[ACTIVE_GATE_MODE] == EncodeText(s.activeGateMode)
            && j.fields[ACTIVE_GATE_PROPOSAL_DIGEST] == EncodeText(s.activeGateProposalDigest)
            && j.fields[ACTIVE_GATE_REVISION] == EncodeNumber(s.activeGateRevision)
  {
    hide EncodeText, EncodeNumber, EncodeApplied;
  }

  lemma EncodedActive(s: RunState)
    requires EncodeState(s).JObject? && EncodeState(s).fields.Keys == EXPECTED_FIELDS
    ensures var j := EncodeState(s);
            && j.fields[ACTIVE_MODEL_ACTION_EVENT_ID] == EncodeText(s.activeModelActionEventId)
            && j.fields[ACTIVE_MODEL_INVOCATION_ID] == EncodeText(s.activeModelInvocationId)
            && j.fields[ACTIVE_STEP_ID] == EncodeText(s.activeStepId)
            && j.fields[ACTIVE_TOOL_CALL_ID] == EncodeText(s.activeToolCallId)
            && j.fields[FAILURE_REASON] == EncodeText(s.failureReason)
  {
    hide EncodeText, EncodeNumber, EncodeApplied;
  }

  lemma EncodedRun(s: RunState)
    requires EncodeState(s).JObject? && EncodeState(s).fields.Keys == EXPECTED_FIELDS
    ensures var j := EncodeState(s);
            && j.fields[APPLIED_EVENT_FINGERPRINTS] == EncodeApplied(s.applied)
            && j.fields[MAX_STEPS] == EncodeNumber(s.maxSteps)
            && j.fields[NEXT_SEQUENCE] == JNumber(s.nextSequence)
            && j.fields[RUN_ID] == JText(s.runId)
            && j.fields[STATUS] == JStatus(s.status)
            && j.fields[TURN_INDEX] == JNumber(s.turnIndex)
  {
    hide EncodeText, EncodeNumber, EncodeApplied;
  }

  lemma EncodingIsWellFormed(s: RunState)
    requires s.runId != Raw("") && (s.maxSteps.Some? ==> s.maxSteps.value >= 1)
    ensures EncodeState(s).JObject? && WellFormed(EncodeState(s).fields)
  {
    hide EncodeState, IsApplied, EncodeApplied;
    AppliedRoundTrip(s.applied);
    EncodedFields(s);
    EncodedGate(s);
    EncodedActive(s);
    EncodedRun(s);
  }

  /** Every state that a RunState object can be decodes from its own encoding, and from nothing else. */
  lemma CodecRoundTrip(s: RunState)
    requires s.runId != Raw("") && (s.maxSteps.Some? ==> s.maxSteps.value >= 1)
    ensures DecodeState(EncodeState(s)) == Some(s)
  {
    hide EncodeState, IsApplied, EncodeApplied, DecodeApplied, WellFormed;
    EncodingIsWellFormed(s);
    AppliedRoundTrip(s.applied);
    EncodedFields(s);
    EncodedGate(s);
    EncodedActive(s);
    EncodedRun(s);
  }

  lemma CodecInjective(s: RunState, t: RunState)
    requires s.runId != Raw("") && (s.maxSteps.Some? ==> s.maxSteps.value >= 1)
    requires t.runId != Raw("") && (t.maxSteps.Some? ==> t.maxSteps.value >= 1)
    requires EncodeState(s) == EncodeState(t)
    ensures s == t
  {
    hide EncodeState, DecodeState;
    CodecRoundTrip(s);
    CodecRoundTrip(t);
  }

  /** SHA-256 of the encoded state, taken to be injective; any other stored text is `OtherDigest`. */
  datatype StateDigest = StateDigest(document: Json) | OtherDigest(text: string)
}
