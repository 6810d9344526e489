/** The tasks and runs tables as a value and the effect of each store operation on them
    (internal/store/attempt_repo.go, internal/store/continuation_repo.go). One SQL statement or
    transaction is one function. Ids count from 1 and nothing is ever deleted, so a row's id
    is its position plus one. */
module Store {
  import opened Base
  import opened Domain
  import opened Agent

  datatype Task = Task(status: TaskStatus, continuation: Continuation)

  /** The columns of a run that are written when it is claimed and never again. */
  datatype Identity = Identity(
    taskID: nat, sessionID: SessionId, tokenBudget: int, startedAt: int, token: Token, startStep: nat)

  datatype Run = Run(
    of: Identity,
    status: RunStatus,
    exit: ExitReason,
    output: string,
    tokensUsed: int,
    error: string,
    finishedAt: Option<int>,
    leaseExpiresAt: int,
    checkpoint: Option<SessionState>)

  datatype Comment = Comment(taskID: nat, author: string, body: string, at: int)

  datatype Db = Db(tasks: seq<Task>, runs: seq<Run>, comments: seq<Comment>)
  {
    predicate HasTask(t: nat)
    {
      1 <= t <= |tasks|
    }

    predicate HasRun(id: nat)
    {
      1 <= id <= |runs|
    }

    function TaskOf(t: nat): Task
      requires HasTask(t)
    {
      tasks[t - 1]
    }

    function RunOf(id: nat): Run
      requires HasRun(id)
    {
      runs[id - 1]
    }
  }

  const EMPTY: Db := Db([], [], [])

  datatype StoreError =
    | InvalidTransition
    | BadLease
    | ExpectationMissing
    | NotFound
    | Conflict
    | NotEligible
    | StatusConflict(observed: TaskStatus, observedRunID: nat)
    | LeaseLost
    | CommentIncomplete

  // ---- the runs of a task ----

  /** The ids of the task's runs, oldest first. */
  function Ids(runs: seq<Run>, t: nat): seq<nat>
  {
    if |runs| == 0 then []
    else Ids(runs[..|runs| - 1], t) + if runs[|runs| - 1].of.taskID == t then [|runs|] else []
  }

  /** The id of the task's newest run, or 0. */
  function Latest(runs: seq<Run>, t: nat): (id: nat)
    ensures id <= |runs| && (id > 0 ==> runs[id - 1].of.taskID == t)
  {
    if |runs| == 0 then 0
    else if runs[|runs| - 1].of.taskID == t then |runs|
    else Latest(runs[..|runs| - 1], t)
  }

  /** The id of the task's newest run that is not running, or 0. */
  function LatestTerminal(runs: seq<Run>, t: nat): (id: nat)
    ensures id <= |runs| && (id > 0 ==> runs[id - 1].of.taskID == t && !runs[id - 1].status.RunRunning?)
  {
    if |runs| == 0 then 0
    else if runs[|runs| - 1].of.taskID == t && !runs[|runs| - 1].status.RunRunning? then |runs|
    else LatestTerminal(runs[..|runs| - 1], t)
  }

  // ---- claiming ----

  datatype StartParams = StartParams(
    taskID: nat, expectedStatus: TaskStatus, expectedRunID: nat, sessionID: SessionId,
    tokenBudget: int, startStep: nat, startedAt: int, lease: int)

  datatype StartAuthorization = OwnerStart | AutomaticStart | InterruptedStart

  function ExpectedExit(authorization: StartAuthorization): ExitReason
    requires !authorization.OwnerStart?
  {
    if authorization.InterruptedStart? then ExitInterrupted else ExitTokenBudgetExhausted
  }

  /** The WHERE clause of the claim. */
  predicate Claimable(db: Db, p: StartParams, authorization: StartAuthorization)
  {
    && db.HasTask(p.taskID)
    && var task := db.TaskOf(p.taskID);
    && task.status == p.expectedStatus
    && p.expectedRunID == Latest(db.runs, p.taskID)
    && if authorization.OwnerStart? then
         p.expectedStatus.Failed? && task.continuation.EligibleAt().Some? ==>
           task.continuation.EligibleAt().value <= p.startedAt
       else
         && task.continuation.Scheduled?
         && task.continuation.at <= p.startedAt
         && db.HasRun(p.expectedRunID)
         && db.RunOf(p.expectedRunID).exit == ExpectedExit(authorization)
  }

  function NewRun(p: StartParams, token: Token): Run
  {
    Run(Identity(p.taskID, p.sessionID, p.tokenBudget, p.startedAt, token, p.startStep),
        RunRunning, ExitNone, "", 0, "", None, p.startedAt + p.lease, None)
  }

  /** Why a claim that changed no row is refused. */
  function Refusal(db: Db, p: StartParams, authorization: StartAuthorization): StoreError
  {
    if !db.HasTask(p.taskID) then NotFound
    else if !authorization.OwnerStart? then Conflict
    else
      var task := db.TaskOf(p.taskID);
      var observedRun := Latest(db.runs, p.taskID);
      var eligible := task.continuation.EligibleAt();
      if && p.expectedStatus.Failed? && task.status.Failed? && observedRun == p.expectedRunID
         && (task.continuation.Stopped? || (eligible.Some? && p.startedAt < eligible.value))
      then NotEligible
      else StatusConflict(task.status, observedRun)
  }

  function StartAttempt(db: Db, p: StartParams, authorization: StartAuthorization, token: Token)
    : (Db, Result<nat, StoreError>)
  {
    if !authorization.OwnerStart? && (!p.expectedStatus.Failed? || p.expectedRunID == 0) then
      (db, Err(ExpectationMissing))
    else if !Transition(p.expectedStatus, InProgress) then (db, Err(InvalidTransition))
    else if p.lease <= 0 then (db, Err(BadLease))
    else if !Claimable(db, p, authorization) then (db, Err(Refusal(db, p, authorization)))
    else
      (db.(tasks := db.tasks[p.taskID - 1 := Task(InProgress, NoContinuation)],
           runs := db.runs + [NewRun(p, token)]),
       Ok(|db.runs| + 1))
  }

  // ---- the owner's fenced writes ----

  /** The row is running, still owned by this token, and its lease has not expired. */
  predicate OwnedBy(db: Db, id: nat, token: Token, now: int)
  {
    && db.HasRun(id)
    && var run := db.RunOf(id);
    && run.status.RunRunning? && run.of.token == token && now < run.leaseExpiresAt
  }

  function UpdateProgress(
    db: Db, id: nat, token: Token, output: string, tokensUsed: int, checkpoint: SessionState, now: int): (Db, bool)
  {
    if !OwnedBy(db, id, token, now) then (db, false)
    else (db.(runs := db.runs[id - 1 :=
        db.runs[id - 1].(output := output, tokensUsed := tokensUsed, checkpoint := Some(checkpoint))]),
          true)
  }

  function RenewLease(db: Db, id: nat, token: Token, duration: int, now: int): (Db, bool)
  {
    if duration <= 0 || !OwnedBy(db, id, token, now) then (db, false)
    else (db.(runs := db.runs[id - 1 := db.runs[id - 1].(leaseExpiresAt := now + duration)]), true)
  }

  // ---- finalizing ----

  datatype FinishParams = FinishParams(
    runID: nat, taskID: nat, token: Token, output: string, tokensUsed: int, error: string,
    author: string, body: string, finishedAt: int, checkpoint: SessionState, completion: AttemptCompletion)

  datatype FinishAuthorization = ByOwner | ByRecovery

  /** Owner and recovery guards: the same row can never satisfy both at one time. */
  predicate Finishable(db: Db, p: FinishParams, authorization: FinishAuthorization, now: int)
  {
    && db.HasRun(p.runID)
    && var run := db.RunOf(p.runID);
    && run.of.taskID == p.taskID
    && run.status.RunRunning?
    && match authorization
       case ByOwner => run.of.token == p.token && now < run.leaseExpiresAt
       case ByRecovery => run.leaseExpiresAt <= now
  }

  function FinishedRun(run: Run, p: FinishParams): Run
  {
    var state := TerminalStateOf(p.completion.outcome);
    run.(status := state.run, exit := state.exit, output := p.output, tokensUsed := p.tokensUsed, error := p.error,
         finishedAt := Some(p.finishedAt), checkpoint := Some(p.checkpoint))
  }

  function FinishAttempt(db: Db, p: FinishParams, authorization: FinishAuthorization,
      now: int): (Db, Option<StoreError>)
  {
    if (p.author == "") != (p.body == "") then (db, Some(CommentIncomplete))
    else if !Finishable(db, p, authorization, now) then (db, Some(LeaseLost))
    else if !db.HasTask(p.taskID) || !db.TaskOf(p.taskID).status.InProgress? then (db, Some(Conflict))
    else
      (Db(db.tasks[p.taskID - 1 := Task(TerminalStateOf(p.completion.outcome).task, p.completion.continuation)],
          db.runs[p.runID - 1 := FinishedRun(db.RunOf(p.runID), p)],
          if p.author != "" then db.comments + [Comment(p.taskID, p.author, p.body, p.finishedAt)] else db.comments),
       None)
  }

  // ---- scheduler queries ----

  predicate Expired(run: Run, now: int)
  {
    run.status.RunRunning? && run.leaseExpiresAt <= now
  }

  /** The rows InitializeUnscheduled selects from. */
  predicate Unscheduled(db: Db, t: nat)
  {
    && db.HasTask(t)
    && db.TaskOf(t) == Task(Failed, NoContinuation)
    && var id := Latest(db.runs, t);
    && id > 0
    && db.RunOf(id).exit.ExitTokenBudgetExhausted?
    && db.RunOf(id).finishedAt.Some?
  }

  /** What InitializeUnscheduled decides from the row it read. It takes the window as fresh. */
  function LateDecision(run: Run, resetInterval: int): Continuation
    requires run.finishedAt.Some?
  {
    Decide(CompletionInput(AttemptTokenExhausted, run.finishedAt.value, resetInterval,
        run.tokensUsed > 0, WindowFresh)).continuation
  }

  /** The decision a server owes an unscheduled task: the one its newest run asks for. */
  function Owed(db: Db, t: nat, resetInterval: int): Continuation
    requires Unscheduled(db, t)
  {
    LateDecision(db.RunOf(Latest(db.runs, t)), resetInterval)
  }

  /** Its write is tied to the task's state only, not to the run that was read. */
  function WriteDecision(db: Db, t: nat, decision: Continuation): (Db, bool)
  {
    if db.HasTask(t) && db.TaskOf(t) == Task(Failed, NoContinuation) then
      (db.(tasks := db.tasks[t - 1 := Task(Failed, decision)]), true)
    else (db, false)
  }

  /** The rows the scheduler's Next selects from. */
  predicate Continuable(db: Db, t: nat)
  {
    && db.HasTask(t)
    && db.TaskOf(t).status.Failed?
    && db.TaskOf(t).continuation.Scheduled?
    && var id := Latest(db.runs, t);
    && id > 0
    && (db.RunOf(id).exit.ExitTokenBudgetExhausted? || db.RunOf(id).exit.ExitInterrupted?)
  }

  // ---- how the runs of a task change ----

  lemma LatestAppend(runs: seq<Run>, run: Run, t: nat)
    ensures Latest(runs + [run], t) == if run.of.taskID == t then |runs| + 1 else Latest(runs, t)
    ensures Ids(runs + [run], t) == Ids(runs, t) + if run.of.taskID == t then [|runs| + 1] else []
  {
    assert (runs + [run])[..|runs|] == runs;
  }

  /** Only which task each run belongs to matters. */
  lemma {:induction false} LatestAgrees(a: seq<Run>, b: seq<Run>, t: nat)
    requires |a| == |b| && forall i :: 0 <= i < |a| ==> a[i].of.taskID == b[i].of.taskID
    ensures Latest(a, t) == Latest(b, t)
    ensures Ids(a, t) == Ids(b, t)
  {
    if |a| > 0 {
      LatestAgrees(a[..|a| - 1], b[..|b| - 1], t);
    }
  }

  /** No run of the task is newer than its latest. */
  lemma {:induction false} LatestIsNewest(runs: seq<Run>, t: nat, i: nat)
    requires i < |runs| && runs[i].of.taskID == t
    ensures Latest(runs, t) >= i + 1
  {
    if i < |runs| - 1 && runs[|runs| - 1].of.taskID != t {
      LatestIsNewest(runs[..|runs| - 1], t, i);
    }
  }

  /** Ids lists exactly the task's runs, in increasing order, each followed by the next. */
  lemma {:induction false} IdsAreTheRuns(runs: seq<Run>, t: nat)
    ensures forall k :: 0 <= k < |Ids(runs, t)| ==>
              1 <= Ids(runs, t)[k] <= |runs| && runs[Ids(runs, t)[k] - 1].of.taskID == t
    ensures forall k, l :: 0 <= k < l < |Ids(runs, t)| ==> Ids(runs, t)[k] < Ids(runs, t)[l]
    ensures Latest(runs, t) == if |Ids(runs, t)| == 0 then 0 else Ids(runs, t)[|Ids(runs, t)| - 1]
  {
    if |runs| > 0 {
      IdsAreTheRuns(runs[..|runs| - 1], t);
    }
  }

  lemma {:induction false} IdsComplete(runs: seq<Run>, t: nat, i: nat)
    requires i < |runs| && runs[i].of.taskID == t
    ensures i + 1 in Ids(runs, t)
  {
    if i < |runs| - 1 {
      IdsComplete(runs[..|runs| - 1], t, i);
    }
  }

  /** The newest run before the k-th run of a task is the (k-1)-th. */
  lemma {:induction false} LatestBefore(runs: seq<Run>, t: nat, k: nat)
    requires k < |Ids(runs, t)|
    ensures 1 <= Ids(runs, t)[k] <= |runs|
    ensures Latest(runs[..Ids(runs, t)[k] - 1], t) == if k == 0 then 0 else Ids(runs, t)[k - 1]
  {
    var ids := Ids(runs, t);
    var n := |runs| - 1;
    IdsAreTheRuns(runs, t);
    IdsAreTheRuns(runs[..n], t);
    if k < |Ids(runs[..n], t)| {
      LatestBefore(runs[..n], t, k);
      assert ids[k] == Ids(runs[..n], t)[k];
      assert runs[..n][..ids[k] - 1] == runs[..ids[k] - 1];
    } else {
      assert ids[k] == |runs|;
    }
  }
}
