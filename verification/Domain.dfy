/** Statuses, terminal outcomes and the completion policy (internal/domain/types.go).
    Times are integers on one scale; an interval of zero or less disables scheduling. */
module Domain {
  import opened Base

  datatype TaskStatus = Todo | InProgress | Failed | Done

  datatype RunStatus = RunRunning | RunSucceeded | RunErrored | RunTokenExhausted | RunInterrupted

  datatype ExitReason = ExitNone | ExitCompleted | ExitAgentError | ExitTokenBudgetExhausted | ExitInterrupted

  datatype AttemptOutcome = AttemptCompleted | AttemptAgentError | AttemptTokenExhausted | AttemptInterrupted

  datatype WindowOrigin = WindowUnknown | WindowFresh | WindowContinued

  const NO_PROGRESS_REASON: string :=
    "auto-retry stopped: next step requires more than the configured window"

  datatype Continuation = NoContinuation | Scheduled(at: int) | Stopped(at: int, reason: string)
  {
    function EligibleAt(): Option<int>
    {
      match this
      case NoContinuation => None
      case Scheduled(at) => Some(at)
      case Stopped(at, _) => Some(at)
    }

    predicate Valid()
    {
      Stopped? ==> reason != ""
    }
  }

  /** The three task columns that hold a continuation. */
  datatype Columns = Columns(state: string, eligibleAt: Option<int>, reason: string)

  function ToColumns(decision: Continuation): Columns
  {
    match decision
    case NoContinuation => Columns("", None, "")
    case Scheduled(at) => Columns("scheduled", Some(at), "")
    case Stopped(at, reason) => Columns("stopped", Some(at), reason)
  }

  datatype Malformed = EmptyWithData | ScheduledUnclear | StoppedWithoutReset | StoppedWithoutReason | UnknownState

  function ParseContinuation(columns: Columns): Result<Continuation, Malformed>
  {
    if columns.state == "" then
      if columns.eligibleAt.Some? || columns.reason != "" then Err(EmptyWithData)
      else Ok(NoContinuation)
    else if columns.state == "scheduled" then
      if columns.eligibleAt.None? || columns.reason != "" then Err(ScheduledUnclear)
      else Ok(Scheduled(columns.eligibleAt.value))
    else if columns.state == "stopped" then
      if columns.eligibleAt.None? then Err(StoppedWithoutReset)
      else if columns.reason == "" then Err(StoppedWithoutReason)
      else Ok(Stopped(columns.eligibleAt.value, columns.reason))
    else
      Err(UnknownState)
  }

  /** Writing a decision and reading it back gives it again, and parsing accepts nothing
      but what some valid decision writes. */
  lemma ColumnsRoundTrip(decision: Continuation, columns: Columns)
    ensures decision.Valid() ==> ParseContinuation(ToColumns(decision)) == Ok(decision)
    ensures ToColumns(decision).state ==
            if decision.Scheduled? then "scheduled" else if decision.Stopped? then "stopped" else ""
    ensures ParseContinuation(columns) == Ok(decision) <==> decision.Valid() && ToColumns(decision) == columns
  {
    hide TerminalStateOf;
    if ParseContinuation(columns) == Ok(decision) {
      assert columns == Columns(columns.state, columns.eligibleAt, columns.reason);
      match columns.eligibleAt {
        case None =>
        case Some(_) =>
      }
    }
  }

  /** What is wrong with columns that are refused. */
  lemma MalformedColumns(columns: Columns)
    ensures var r := ParseContinuation(columns);
            var some, why := columns.eligibleAt.Some?, columns.reason != "";
            && (r == Err(UnknownState) <==> columns.state !in ["", "scheduled", "stopped"])
            && (r == Err(EmptyWithData) <==> columns.state == "" && (some || why))
            && (r == Err(ScheduledUnclear) <==>
                  columns.state == "scheduled" && (!some || why))
            && (r == Err(StoppedWithoutReset) <==> columns.state == "stopped" && !some)
            && (r == Err(StoppedWithoutReason) <==> columns.state == "stopped" && some && !why)
  {
  }

  datatype TerminalState = TerminalState(run: RunStatus, exit: ExitReason, task: TaskStatus)

  function TerminalStateOf(outcome: AttemptOutcome): TerminalState
  {
    match outcome
    case AttemptCompleted => TerminalState(RunSucceeded, ExitCompleted, Done)
    case AttemptAgentError => TerminalState(RunErrored, ExitAgentError, Failed)
    case AttemptTokenExhausted => TerminalState(RunTokenExhausted, ExitTokenBudgetExhausted, Failed)
    case AttemptInterrupted => TerminalState(RunInterrupted, ExitInterrupted, Failed)
  }

  datatype AttemptCompletion = AttemptCompletion(outcome: AttemptOutcome, continuation: Continuation)

  /** Which continuation an outcome may carry. */
  function NewAttemptCompletion(outcome: AttemptOutcome, continuation: Continuation)
    : Result<AttemptCompletion, string>
  {
    var valid :=
      match outcome
      case AttemptCompleted => continuation.NoContinuation?
      case AttemptAgentError => continuation.NoContinuation?
      case AttemptTokenExhausted => true
      case AttemptInterrupted => continuation.Scheduled?;
    if valid then Ok(AttemptCompletion(outcome, continuation))
    else Err("attempt outcome cannot use continuation")
  }

  datatype CompletionInput = CompletionInput(
    outcome: AttemptOutcome, finishedAt: int, resetInterval: int, progressed: bool, origin: WindowOrigin)

  function DecideAttemptCompletion(input: CompletionInput): (r: Result<AttemptCompletion, string>)
    ensures r.Ok? && r.value.outcome == input.outcome && r.value.continuation.Valid()
  {
    var decision :=
      match input.outcome
      case AttemptTokenExhausted =>
        if input.resetInterval > 0 then
          var resetAt := input.finishedAt + input.resetInterval;
          if input.progressed || !input.origin.WindowFresh? then Scheduled(resetAt)
          else Stopped(resetAt, NO_PROGRESS_REASON)
        else NoContinuation
      case AttemptInterrupted => Scheduled(input.finishedAt)
      case AttemptCompleted => NoContinuation
      case AttemptAgentError => NoContinuation;
    NewAttemptCompletion(input.outcome, decision)
  }

  function Decide(input: CompletionInput): AttemptCompletion
  {
    DecideAttemptCompletion(input).value
  }

  /** Validation accepts exactly what the policy can decide, up to the wording of a stop: a
      completion it accepts is the policy's answer to some input, and it accepts every answer. */
  lemma ValidationIsPolicy(outcome: AttemptOutcome, continuation: Continuation, input: CompletionInput)
    returns (example: CompletionInput)
    ensures NewAttemptCompletion(input.outcome, Decide(input).continuation).Ok?
    ensures example.outcome == outcome
    ensures NewAttemptCompletion(outcome, continuation).Ok? <==>
            Decide(example).continuation == continuation || (continuation.Stopped? && outcome.AttemptTokenExhausted?)
    ensures continuation.Stopped? && outcome.AttemptTokenExhausted? ==>
            Decide(example).continuation == Stopped(continuation.at, NO_PROGRESS_REASON)
  {
    example :=
      match continuation
      case NoContinuation => CompletionInput(outcome, 0, 0, false, WindowFresh)
      case Scheduled(at) =>
        if outcome.AttemptTokenExhausted? then CompletionInput(outcome, at - 1, 1, true, WindowFresh)
        else CompletionInput(outcome, at, 1, true, WindowFresh)
      case Stopped(at, _) => CompletionInput(outcome, at - 1, 1, false, WindowFresh);
  }

  /** The task status machine. */
  predicate Transition(from: TaskStatus, to: TaskStatus)
  {
    (from.Todo? && to.InProgress?) || (from.InProgress? && (to.Done? || to.Failed?)) || (from.Failed? && to.InProgress?)
  }
}
