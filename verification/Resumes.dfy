/** What a refused resume is told, and why a race never ends a server. */
module Resumes {
  import opened Base
  import opened Domain
  import opened Plans
  import opened Agent
  import opened Store
  import opened Runner
  import opened Protocol
  import opened Invariant
  import opened Steps
  import opened Fencing
  import opened StoreAnswers
  import opened Continuity

  /** The refusals that wrap the conflict error, after which a server just scans again. */
  predicate IsRace(e: ResumeError)
  {
    e.NotFailed? || e.SelectionChanged?
  }

  /** After every history, the answer to a resume of an existing task says exactly what stands
      in its way. A task that has not failed is reported with the status it has; a failed one
      is refused to a human only as too early, exactly if its stored time is later than the
      clock; and to a server only as a changed selection, exactly if the task is not scheduled,
      its newest run or that run's exit is not the one selected, or its time has not come. */
  lemma ResumeAnswers(
    actions: seq<Action>, t: nat, kind: ResumeKind, expectedRunID: nat, time: int, file: Option<SessionState>)
    requires After(actions).db.HasTask(t)
    ensures var s := After(actions);
            var task, id := s.db.TaskOf(t), Latest(s.db.runs, t);
            && ResumeCandidate(s.db, t).Some?
            && var r := PrepareResume(ResumeCandidate(s.db, t).value, kind, expectedRunID, time, file);
            && (r == Err(NotFailed(task.status)) <==> !task.status.Failed?)
            && (task.status.Failed? ==> id > 0)
            && (task.status.Failed? && kind.ManualResume? ==>
                  && (r.Ok? || r == Err(TooEarly))
                  && (r == Err(TooEarly) <==>
                        task.continuation.EligibleAt().Some? && time < task.continuation.EligibleAt().value))
            && (task.status.Failed? && !kind.ManualResume? ==>
                  && (r.Ok? || r == Err(SelectionChanged))
                  && (r.Ok? <==>
                        && task.continuation.Scheduled? && task.continuation.at <= time && expectedRunID == id
                        && (if kind.ScheduledExhaustionResume? then s.db.RunOf(id).exit.ExitTokenBudgetExhausted?
                            else s.db.RunOf(id).exit.ExitInterrupted?)))
            && (!kind.ManualResume? && r.Err? ==> IsRace(r.error))
  {
    var s := After(actions);
    if s.db.TaskOf(t).status.Failed? {
      FailureIsThere(actions, t);
    }
    hide Play, Latest, LatestTerminal;
  }

  /** What a resume makes of any snapshot whose selection and time are in order, also of rows
      that only older versions can have left behind: no terminal run, no session anywhere, or
      an exit that cannot be resumed are told apart; and otherwise the session is that of the
      checkpoint, or of the file if there is none, with the rest of the window after an
      interruption and a fresh configured window after an agent error or an exhaustion. */
  lemma SnapshotAnswers(c: Candidate, kind: ResumeKind, expectedRunID: nat, time: int, file: Option<SessionState>)
    requires c.status.Failed? && !(c.continuation.EligibleAt().Some? && time < c.continuation.EligibleAt().value)
    requires !kind.ManualResume? ==>
      c.runID == expectedRunID && c.continuation.Scheduled? && c.exit == ExpectedExit(AuthorizationOf(kind))
    ensures var r := PrepareResume(c, kind, expectedRunID, time, file);
            var source := if c.checkpoint.Some? then c.checkpoint else file;
            && (r == Err(NoTerminalRun) <==> c.runID == 0)
            && (r == Err(NoSession) <==> c.runID > 0 && source.None?)
            && (r == Err(CannotResume) <==> c.runID > 0 && source.Some? && (c.exit.ExitNone? || c.exit.ExitCompleted?))
            && (r.Ok? <==> c.runID > 0 && source.Some? && !c.exit.ExitNone? && !c.exit.ExitCompleted?)
            && (r.Ok? ==>
                  && var s := source.value;
                  && r.value.id == s.id && r.value.next == s.next && r.value.steps == s.steps && r.value.used == 0
                  && r.value.erroredAt == s.erroredAt && r.value.remaining == r.value.allowance
                  && r.value.allowance == (if c.exit.ExitInterrupted? then s.remaining else s.budget)
                  && r.value.origin == (if c.exit.ExitInterrupted? then WindowContinued else WindowFresh))
  {
  }

  /** However stale its snapshot, the claim of an automatic resume is only ever refused as a
      conflict: in every reached state a server survives losing the race. */
  lemma AutomaticClaimsLoseGracefully(actions: seq<Action>, k: nat, startedAt: int, lease: int, token: Token)
    requires k < |After(actions).snapshots| && !After(actions).snapshots[k].kind.ManualResume? && lease > 0
    ensures var s := After(actions);
            var snap := s.snapshots[k];
            var p := ClaimParams(snap.taskID, snap.status, snap.previousRun, snap.session, startedAt, lease);
            var r := StartAttempt(s.db, p, AuthorizationOf(snap.kind), token).1;
            r.Ok? || r == Err(Conflict)
  {
    var s := After(actions);
    InvariantAlways(actions);
    var snap := s.snapshots[k];
    hide Play, LinkOk, TaskOk, FileOk, RecoveryOk, RowOk, OwnerOk, Ready, Granted, Start, StartAttempt;
    assert SnapshotOk(s, k);
    assert RunOk(s, snap.previousRun - 1);
    RefusalsExplain(s.db, ClaimParams(snap.taskID, snap.status, snap.previousRun, snap.session, startedAt, lease),
                    AuthorizationOf(snap.kind), token);
  }

  /** What reconciliation refuses: a session bound to a newer run, one bound to this run by
      another owner, and a run whose allowance makes no sense, each told apart. */
  lemma ReconcileAnswers(loaded: SessionState, id: nat, of: Identity)
    ensures var r := Reconcile(loaded, id, of);
            && (r == Err(BoundToNewerRun) <==> id < loaded.runID)
            && (r == Err(TokenMismatch) <==> loaded.runID == id && loaded.token != of.token)
            && (r == Err(NegativeAllowance) <==> loaded.runID < id && of.tokenBudget < 0)
            && (r.Ok? ==> r.value.runID == id && r.value.token == of.token && r.value.next == loaded.next)
            && (r.Ok? && loaded.runID == id ==> r.value == loaded)
            && (r.Ok? && loaded.runID != id ==>
                  && r.value.halt.HaltRunning? && r.value.used == 0 && r.value.remaining == of.tokenBudget
                  && r.value.start == loaded.next)
  {
  }
}
