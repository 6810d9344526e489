/** The store as an object that its operations update in place
    (internal/store/attempt_repo.go, internal/store/continuation_repo.go). Each method follows
    the statements of its operation, transaction and rollback included, and is proved against
    the function of module Store that the rest of the project reasons about. */
module Repo {
  import opened Base
  import opened Domain
  import opened Agent
  import opened Store
  import opened Runner

  datatype Selection = Selection(taskID: nat, runID: nat, exit: ExitReason, eligibleAt: int)

  datatype Initialization = NothingUnscheduled | Initialized(taskID: nat) | Overtaken(taskID: nat)

  class AttemptRepo {
    var tasks: seq<Task>
    var runs: seq<Run>
    var comments: seq<Comment>

    constructor ()
      ensures Contents() == EMPTY
    {
      tasks, runs, comments := [], [], [];
    }

    function Contents(): Db
      reads this
    {
      Db(tasks, runs, comments)
    }

    // ---- queries ----

    /** The task's newest run: the first one met going down the ids. */
    method LatestRun(t: nat) returns (id: nat)
      ensures id == Latest(runs, t)
    {
      id := |runs|;
      assert runs[..id] == runs;
      while id > 0 && runs[id - 1].of.taskID != t
        invariant id <= |runs| && Latest(runs[..id], t) == Latest(runs, t)
      {
        assert runs[..id][..id - 1] == runs[..id - 1];
        id := id - 1;
      }
      assert id > 0 ==> runs[..id][id - 1] == runs[id - 1];
    }

    /** The same among the runs that are not running. */
    method LatestTerminalRun(t: nat) returns (id: nat)
      ensures id == LatestTerminal(runs, t)
    {
      id := |runs|;
      assert runs[..id] == runs;
      while id > 0 && (runs[id - 1].of.taskID != t || runs[id - 1].status.RunRunning?)
        invariant id <= |runs| && LatestTerminal(runs[..id], t) == LatestTerminal(runs, t)
      {
        assert runs[..id][..id - 1] == runs[..id - 1];
        id := id - 1;
      }
      assert id > 0 ==> runs[..id][id - 1] == runs[id - 1];
    }

    method GetResumeCandidate(t: nat) returns (candidate: Option<Candidate>)
      ensures candidate == ResumeCandidate(Contents(), t)
    {
      if !(1 <= t <= |tasks|) {
        return None;
      }
      var task := tasks[t - 1];
      var id := LatestTerminalRun(t);
      if id == 0 {
        return Some(Candidate(task.status, 0, 0, ExitNone, task.continuation, None));
      }
      var run := runs[id - 1];
      return Some(Candidate(task.status, id, run.of.sessionID, run.exit, task.continuation, run.checkpoint));
    }

    /** Some running run whose lease has expired, if there is one. */
    method NextExpired(now: int) returns (id: Option<nat>)
      ensures id.Some? ==> 1 <= id.value <= |runs| && Expired(runs[id.value - 1], now)
      ensures id.None? ==> forall i :: 0 <= i < |runs| ==> !Expired(runs[i], now)
    {
      for i := 0 to |runs|
        invariant forall m :: 0 <= m < i ==> !Expired(runs[m], now)
      {
        if runs[i].status.RunRunning? && runs[i].leaseExpiresAt <= now {
          return Some(i + 1);
        }
      }
      return None;
    }

    /** Some task the scheduler may continue, with the run and exit reason it selected. */
    method Next() returns (next: Option<Selection>)
      ensures next.Some? ==>
        && Continuable(Contents(), next.value.taskID)
        && next.value.runID == Latest(runs, next.value.taskID) && next.value.exit == runs[next.value.runID - 1].exit
        && next.value.eligibleAt == tasks[next.value.taskID - 1].continuation.at
      ensures next.None? ==> forall t: nat :: !Continuable(Contents(), t)
    {
      for i := 0 to |tasks|
        invariant forall m: nat :: m <= i ==> !Continuable(Contents(), m)
      {
        var task := tasks[i];
        if task.status.Failed? && task.continuation.Scheduled? {
          var id := LatestRun(i + 1);
          if id > 0 && (runs[id - 1].exit.ExitTokenBudgetExhausted? || runs[id - 1].exit.ExitInterrupted?) {
            return Some(Selection(i + 1, id, runs[id - 1].exit, task.continuation.at));
          }
        }
      }
      return None;
    }

    // ---- claiming ----

    method StartAttempt(p: StartParams, authorization: StartAuthorization, token: Token)
      returns (r: Result<nat, StoreError>)
      modifies this
      ensures (Contents(), r) == Store.StartAttempt(old(Contents()), p, authorization, token)
    {
      if !authorization.OwnerStart? && (!p.expectedStatus.Failed? || p.expectedRunID == 0) {
        return Err(ExpectationMissing);
      }
      if !Transition(p.expectedStatus, InProgress) {
        return Err(InvalidTransition);
      }
      if p.lease <= 0 {
        return Err(BadLease);
      }
      var rows := 0;
      var latest := LatestRun(p.taskID);
      if 1 <= p.taskID <= |tasks| {
        var task := tasks[p.taskID - 1];
        var eligible := task.continuation.EligibleAt();
        var matches := task.status == p.expectedStatus && latest == p.expectedRunID;
        if authorization.OwnerStart? {
          matches := matches && (!p.expectedStatus.Failed? || eligible.None? || eligible.value <= p.startedAt);
        } else {
          matches := matches && task.continuation.Scheduled? && task.continuation.at <= p.startedAt
            && runs[p.expectedRunID - 1].exit == ExpectedExit(authorization);
        }
        if matches {
          tasks := tasks[p.taskID - 1 := Task(InProgress, NoContinuation)];
          rows := 1;
        }
      }
      if rows != 1 {
        if !(1 <= p.taskID <= |tasks|) {
          return Err(NotFound);
        }
        if !authorization.OwnerStart? {
          return Err(Conflict);
        }
        var observed := tasks[p.taskID - 1];
        if p.expectedStatus.Failed? && observed.status == p.expectedStatus && latest == p.expectedRunID {
          if observed.continuation.Stopped? {
            return Err(NotEligible);
          }
          var eligible := observed.continuation.EligibleAt();
          if eligible.Some? && p.startedAt < eligible.value {
            return Err(NotEligible);
          }
        }
        return Err(StatusConflict(observed.status, latest));
      }
      runs := runs + [NewRun(p, token)];
      return Ok(|runs|);
    }

    // ---- the owner's fenced writes ----

    method UpdateProgress(id: nat, token: Token, output: string, tokensUsed: int, checkpoint: SessionState, now: int)
      returns (ok: bool)
      modifies this`runs
      ensures (Contents(), ok) == Store.UpdateProgress(old(Contents()), id, token, output, tokensUsed, checkpoint, now)
    {
      if 1 <= id <= |runs| && runs[id - 1].status.RunRunning? && runs[id - 1].of.token == token
          && now < runs[id - 1].leaseExpiresAt {
        runs := runs[id - 1 :=
            runs[id - 1].(output := output, tokensUsed := tokensUsed, checkpoint := Some(checkpoint))];
        return true;
      }
      return false;
    }

    method RenewLease(id: nat, token: Token, duration: int, now: int) returns (ok: bool)
      modifies this`runs
      ensures (Contents(), ok) == Store.RenewLease(old(Contents()), id, token, duration, now)
    {
      if duration <= 0 {
        return false;
      }
      if 1 <= id <= |runs| && runs[id - 1].status.RunRunning? && runs[id - 1].of.token == token
          && now < runs[id - 1].leaseExpiresAt {
        runs := runs[id - 1 := runs[id - 1].(leaseExpiresAt := now + duration)];
        return true;
      }
      return false;
    }

    // ---- finalizing ----

    /** Run, task and comment in one transaction: if any write does not apply, none is kept. */
    method FinishAttempt(p: FinishParams, authorization: FinishAuthorization, now: int)
      returns (error: Option<StoreError>)
      modifies this
      ensures (Contents(), error) == Store.FinishAttempt(old(Contents()), p, authorization, now)
    {
      if (p.author == "") != (p.body == "") {
        return Some(CommentIncomplete);
      }
      var before := runs;
      var state := TerminalStateOf(p.completion.outcome);
      var rows := 0;
      if 1 <= p.runID <= |runs| {
        var run := runs[p.runID - 1];
        var authorized :=
          match authorization
          case ByOwner => run.of.token == p.token && now < run.leaseExpiresAt
          case ByRecovery => run.leaseExpiresAt <= now;
        if run.of.taskID == p.taskID && run.status.RunRunning? && authorized {
          runs := runs[p.runID - 1 := run.(status := state.run, exit := state.exit, output := p.output,
            tokensUsed := p.tokensUsed, error := p.error, finishedAt := Some(p.finishedAt),
            checkpoint := Some(p.checkpoint))];
          rows := 1;
        }
      }
      if rows != 1 {
        return Some(LeaseLost);
      }
      if !(1 <= p.taskID <= |tasks| && tasks[p.taskID - 1].status.InProgress?) {
        runs := before;
        return Some(Conflict);
      }
      tasks := tasks[p.taskID - 1 := Task(state.task, p.completion.continuation)];
      if p.author != "" {
        comments := comments + [Comment(p.taskID, p.author, p.body, p.finishedAt)];
      }
      return None;
    }

    // ---- late scheduling ----

    /** InitializeUnscheduled: read the first unscheduled task, decide, and write if the task
        is still failed without a continuation. In between other processes may have left the
        tables as meanwhile says. */
    method InitializeUnscheduled(resetInterval: int, meanwhile: Option<Db>) returns (r: Initialization)
      modifies this
      ensures match r
        case NothingUnscheduled => unchanged(this) && forall t: nat :: !Unscheduled(Contents(), t)
        case _ =>
          && old(Unscheduled(Contents(), r.taskID))
          && (forall t: nat :: t < r.taskID ==> !old(Unscheduled(Contents(), t)))
          && var decision := LateDecision(old(runs)[Latest(old(runs), r.taskID) - 1], resetInterval);
          && var (db, ok) :=
              WriteDecision(if meanwhile.Some? then meanwhile.value else old(Contents()), r.taskID, decision);
          && Contents() == db && (r.Initialized? <==> ok)
    {
      hide LateDecision;
      ghost var db := Contents();
      for i := 0 to |tasks|
        invariant unchanged(this) && Contents() == db
        invariant forall m: nat :: m <= i ==> !Unscheduled(db, m)
      {
        if tasks[i].status.Failed? && tasks[i].continuation.NoContinuation? {
          var id := LatestRun(i + 1);
          if id > 0 && runs[id - 1].exit.ExitTokenBudgetExhausted? && runs[id - 1].finishedAt.Some? {
            assert Unscheduled(db, i + 1);
            var decision := LateDecision(runs[id - 1], resetInterval);
            if meanwhile.Some? {
              tasks, runs, comments := meanwhile.value.tasks, meanwhile.value.runs, meanwhile.value.comments;
            }
            var written := StoreDecision(i + 1, decision);
            return if written then Initialized(i + 1) else Overtaken(i + 1);
          }
        }
      }
      return NothingUnscheduled;
    }

    /** The guarded write. */
    method StoreDecision(t: nat, decision: Continuation) returns (written: bool)
      modifies this`tasks
      ensures (Contents(), written) == WriteDecision(old(Contents()), t, decision)
    {
      if 1 <= t <= |tasks| && tasks[t - 1].status.Failed? && tasks[t - 1].continuation.NoContinuation? {
        tasks := tasks[t - 1 := Task(Failed, decision)];
        return true;
      }
      return false;
    }
  }
}
