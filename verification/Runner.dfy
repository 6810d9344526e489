/** The decisions of the attempt driver between two store operations
    (internal/runner/runner.go). */
module Runner {
  import opened Base
  import opened Domain
  import opened Agent
  import opened Store

  // ---- terminalizeCheckpoint ----

  datatype Terminal = Terminal(completion: AttemptCompletion, errorText: string, author: string, body: string)

  function OutcomeOf(halt: HaltReason): AttemptOutcome
  {
    match halt
    case HaltCompleted => AttemptCompleted
    case HaltAgentError => AttemptAgentError
    case HaltTokenExhausted => AttemptTokenExhausted
    case HaltInterrupted => AttemptInterrupted
    case HaltRunning => AttemptInterrupted
    case HaltUnset => AttemptInterrupted
  }

  /** The policy decision for a checkpoint: exhaustion counts from the time the session
      halted, everything else from the time of finalization. */
  function CompletionFor(s: SessionState, startStep: nat, finishedAt: int, resetInterval: int): AttemptCompletion
  {
    var outcome := OutcomeOf(s.halt);
    var policyTime := if outcome.AttemptTokenExhausted? && s.haltedAt.Some? then s.haltedAt.value else finishedAt;
    Decide(CompletionInput(outcome, policyTime, resetInterval, s.next > startStep, s.origin))
  }

  function Terminalize(
    s: SessionState, startStep: nat, finishedAt: int, resetInterval: int, interruptionError: string): Terminal
  {
    var completion := CompletionFor(s, startStep, finishedAt, resetInterval);
    match completion.outcome
    case AttemptCompleted => Terminal(completion, "", "agent", Summary(s))
    case AttemptAgentError => Terminal(completion, s.errorMessage, "", "")
    case AttemptTokenExhausted => Terminal(completion, "", "", "")
    case AttemptInterrupted => Terminal(completion, interruptionError, "", "")
  }

  /** What runAttempt sends to FinishAttempt once the run loop has returned. */
  function OwnerParams(
    id: nat, of: Identity, s: SessionState, lines: seq<string>, startStep: nat,
    finishedAt: int, resetInterval: int, interruptionError: string): FinishParams
  {
    var t := Terminalize(s, startStep, finishedAt, resetInterval, interruptionError);
    FinishParams(id, of.taskID, of.token, Join(lines, "\n"), s.used, t.errorText, t.author,
        t.body, finishedAt, s, t.completion)
  }

  /** What RecoverExpired sends to RecoverExpiredAttempt. */
  function RecoveryParams(id: nat, of: Identity, s: SessionState, resetInterval: int, now: int): FinishParams
    requires s.next <= |s.steps|
  {
    var t := Terminalize(s, of.startStep, now, resetInterval, "process exited before attempt finalization");
    FinishParams(id, of.taskID, 0, AttemptOutput(s), s.used, t.errorText, t.author, t.body, now, s, t.completion)
  }

  // ---- RecoverExpired: which session the expired run had ----

  datatype ReconcileError = BoundToNewerRun | NegativeAllowance | TokenMismatch

  /** A session not yet bound to the run is given the run's whole allowance and bound to it. */
  function Reconcile(loaded: SessionState, id: nat, of: Identity): Result<SessionState, ReconcileError>
  {
    if loaded.runID > id then Err(BoundToNewerRun)
    else if loaded.runID == id then
      if loaded.token != of.token then Err(TokenMismatch) else Ok(loaded)
    else
      match BeginAttempt(loaded, of.tokenBudget, WindowUnknown)
      case Err(_) => Err(NegativeAllowance)
      case Ok(begun) => Ok(BindAttempt(begun, id, of.token))
  }

  // ---- resume ----

  datatype ResumeKind = ManualResume | ScheduledExhaustionResume | InterruptedRecoveryResume

  function AuthorizationOf(kind: ResumeKind): StartAuthorization
  {
    match kind
    case ManualResume => OwnerStart
    case ScheduledExhaustionResume => AutomaticStart
    case InterruptedRecoveryResume => InterruptedStart
  }

  datatype Candidate = Candidate(
    status: TaskStatus, runID: nat, sessionID: SessionId, exit: ExitReason, continuation: Continuation,
    checkpoint: Option<SessionState>)

  /** GetResumeCandidate: task status and latest terminal run, in one statement. */
  function ResumeCandidate(db: Db, t: nat): Option<Candidate>
  {
    if !db.HasTask(t) then None
    else
      var id := LatestTerminal(db.runs, t);
      var task := db.TaskOf(t);
      if id == 0 then Some(Candidate(task.status, 0, 0, ExitNone, task.continuation, None))
      else
        var run := db.RunOf(id);
        Some(Candidate(task.status, id, run.of.sessionID, run.exit, task.continuation, run.checkpoint))
  }

  datatype ResumeError =
    NotFailed(observed: TaskStatus) | NoTerminalRun | SelectionChanged | TooEarly | NoSession | CannotResume

  /** The session a resume takes into its claim. The compatibility file is read only for a
      run without a checkpoint. */
  function PrepareResume(c: Candidate, kind: ResumeKind, expectedRunID: nat, now: int, file: Option<SessionState>)
    : Result<SessionState, ResumeError>
  {
    if !c.status.Failed? then Err(NotFailed(c.status))
    else if c.runID == 0 then Err(NoTerminalRun)
    else if && !kind.ManualResume?
            && (c.runID != expectedRunID || c.exit != ExpectedExit(AuthorizationOf(kind)) || !c.continuation.Scheduled?)
      then Err(SelectionChanged)
    else if c.continuation.EligibleAt().Some? && now < c.continuation.EligibleAt().value then
      Err(if kind.ManualResume? then TooEarly else SelectionChanged)
    else
      var source := if c.checkpoint.Some? then c.checkpoint else file;
      if source.None? then Err(NoSession)
      else Granted(source.value, c.exit)
  }

  /** The allowance of the next attempt: a fresh window after an agent error or exhaustion,
      the rest of the current window after an interruption. */
  function Granted(s: SessionState, exit: ExitReason): Result<SessionState, ResumeError>
  {
    if exit.ExitAgentError? || exit.ExitTokenBudgetExhausted? then
      Ok(BeginAttempt(s, s.budget, WindowFresh).value)
    else if exit.ExitInterrupted? then Ok(ContinueAttempt(s))
    else Err(CannotResume)
  }

  function ClaimParams(t: nat, status: TaskStatus, previousRun: nat, s: SessionState,
      startedAt: int, lease: int): StartParams
  {
    StartParams(t, status, previousRun, s.id, s.allowance, s.next, startedAt, lease)
  }
}
