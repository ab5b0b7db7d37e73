/** Values that cross the durable boundary: texts, decoded JSON values, and the usual wrappers. */
module Values {
  datatype Option<+T> = None | Some(value: T)

  datatype Result<+T, +E> = Ok(value: T) | Err(error: E)

  /** The event types of src/agent_runtime_lab/domain/events.py:16-41. */
  datatype Kind =
    | RUN_CREATED | RUN_STARTED | RUN_PAUSED | RUN_RESUMED | RUN_CANCELLED
    | RUN_STEP_BUDGET_EXHAUSTED
    | MODEL_ACTION_REQUESTED | MODEL_ACTION_PROPOSED | MODEL_ACTION_FAILED
    | COMPLETION_ACCEPTED | COMPLETION_REJECTED
    | TOOL_REQUESTED | TOOL_AUTHORIZED | TOOL_ESCALATED | TOOL_DENIED
    | GATE_APPROVED | GATE_REJECTED | GATE_EVALUATED | GATE_REVISED
    | TOOL_STARTED | TOOL_SUCCEEDED | TOOL_FAILED | TOOL_TIMED_OUT
    | VERIFICATION_SUCCEEDED | VERIFICATION_FAILED

  /** String literals of the program that decisions depend on, and its fixed messages. */
  datatype Word =
    | PAIR | USER_GATE
    | PASS | RETRY | BLOCK
    | RUN_SCOPE | STEP_SCOPE
    | TOOL_CALL | FINAL_ANSWER
    | ADAPTER_OUTCOME_UNKNOWN | ADAPTER_FAILED
    | TOOL_FAILED_DEFAULT | TOOL_TIMED_OUT_DEFAULT

  datatype Mode = Pair | UserGate

  /**
   * A Python string, seen by the shape in which the runtime writes it.  Every string has exactly one
   * shape: the composed names can be parsed back, the digests are SHA-256 values of different
   * records (SHA-256 is taken to be injective), and `Raw` is any string of no other shape.
   */
  datatype Text =
    | Raw(characters: string)
    | Literal(word: Word)
    | StepName(number: nat)
    | InvocationName(run: Text, step: Text)
    | EventName(run: Text, sequence: nat, kind: Kind)
    | EffectName(run: Text, call: Text)
    | AnswerHash(answer: Text)
    | ProposalHash(run: Text, step: Text, call: Text, tool: Text, arguments: Text,
                   paths: Text, mode: Mode, revision: nat)
    | ObservationJson(checks: Val, summary: Val)
    | EmptyObjectJson
    | BudgetSpent(completedSteps: int, maxSteps: int)
    | AttemptLimit(reason: Text)

  /** The result of `payload.get(field)` on a decoded JSON object, with absence kept apart from null. */
  datatype Val =
    | Missing
    | Null
    | Bool(flag: bool)
    | Int(number: int)
    | Real(fraction: real)
    | Str(text: Text)
    | List(items: seq<Val>)
    | Object(canonical: Text)

  /** A string that a frozen dataclass or pydantic model has checked to be non-empty. */
  type Name = t: Text | t != Raw("") witness Literal(PAIR)

  predicate IsText(v: Val) {
    v.Str? && v.text != Raw("")
  }

  predicate IsPositive(v: Val) {
    v.Int? && v.number >= 1
  }

  predicate IsAbsent(v: Val) {
    v.Missing? || v.Null?
  }

  /** Python's `value == n` for an integer n: booleans and floats compare by value. */
  predicate EqualsInt(v: Val, n: int) {
    match v
    case Int(i) => i == n
    case Bool(b) => (if b then 1 else 0) == n
    case Real(r) => r == n as real
    case _ => false
  }

  function ModeText(m: Mode): Name {
    match m
    case Pair => Literal(PAIR)
    case UserGate => Literal(USER_GATE)
  }
}
