/** No failure is stranded: exactly when a failed task can be resumed, by hand and by a
    server, and which failures a server picks up again by itself. */
module Continuity {
  import opened Base
  import opened Domain
  import opened Plans
  import opened Agent
  import opened Store
  import opened Runner
  import opened Protocol
  import opened Invariant
  import opened Steps
  import opened Fencing
  import opened Lineage

  /** When a resume of this kind, prepared at one time and claimed at another, may go ahead:
      the continuation's time has come, and an automatic resume names the newest run, which
      ended for the reason it was scheduled for. */
  predicate MayResume(db: Db, t: nat, kind: ResumeKind, expectedRunID: nat, time: int, startedAt: int)
    requires db.HasTask(t) && Latest(db.runs, t) > 0
  {
    var task, id := db.TaskOf(t), Latest(db.runs, t);
    if kind.ManualResume? then
      task.continuation.EligibleAt().Some? ==>
        task.continuation.EligibleAt().value <= time && task.continuation.EligibleAt().value <= startedAt
    else
      && task.continuation.Scheduled? && task.continuation.at <= time && task.continuation.at <= startedAt
      && expectedRunID == id && db.RunOf(id).exit == ExpectedExit(AuthorizationOf(kind))
  }

  /** The newest run of a task, when it is not running, is its newest terminal run. */
  lemma {:induction false} LatestIsTerminal(runs: seq<Run>, t: nat)
    requires Latest(runs, t) > 0 && !runs[Latest(runs, t) - 1].status.RunRunning?
    ensures LatestTerminal(runs, t) == Latest(runs, t)
  {
    if runs[|runs| - 1].of.taskID != t {
      LatestIsTerminal(runs[..|runs| - 1], t);
    }
  }

  /** The run has a checkpoint, and an exit that says which window the next attempt gets. */
  predicate Resumable(run: Run)
  {
    run.checkpoint.Some?
    && (run.exit.ExitAgentError? || run.exit.ExitTokenBudgetExhausted? || run.exit.ExitInterrupted?)
  }

  /** A failed task's newest run, as a resume finds it. */
  lemma FailureIsThere(actions: seq<Action>, t: nat)
    requires After(actions).db.HasTask(t) && After(actions).db.TaskOf(t).status.Failed?
    ensures var s := After(actions);
            var id := Latest(s.db.runs, t);
            && id > 0 && LatestTerminal(s.db.runs, t) == id
            && Resumable(s.db.RunOf(id))
  {
    var s := After(actions);
    var id := Latest(s.db.runs, t);
    InvariantAlways(actions);
    hide Play, LinkOk, FileOk, SnapshotOk, RecoveryOk, OwnerOk, OwnState, AdoptedState, AttemptOutput;
    assert TaskOk(s, t);
    assert RunOk(s, id - 1);
    LatestIsTerminal(s.db.runs, t);
  }

  /** A resume of a failed task, from its snapshot to its claim, with nothing in between. */
  function ResumeAndClaim(
    s: System, t: nat, kind: ResumeKind, expectedRunID: nat, time: int, startedAt: int,
    lease: int, token: Token): System
  {
    DoClaim(DoResume(s, t, kind, expectedRunID, time), |s.snapshots|, startedAt, lease, token)
  }

  /** The snapshot half: a resume prepares a session exactly when the first clock allows it. */
  lemma ResumePrepares(s: System, t: nat, kind: ResumeKind, expectedRunID: nat, time: int)
    requires s.db.HasTask(t) && s.db.TaskOf(t).status.Failed?
    requires Latest(s.db.runs, t) > 0 && LatestTerminal(s.db.runs, t) == Latest(s.db.runs, t)
    requires Resumable(s.db.RunOf(Latest(s.db.runs, t)))
    ensures var id := Latest(s.db.runs, t);
            var run := s.db.RunOf(id);
            && Granted(run.checkpoint.value, run.exit).Ok?
            && DoResume(s, t, kind, expectedRunID, time) ==
               if MayResume(s.db, t, kind, expectedRunID, time, time)
               then s.(snapshots :=
                   s.snapshots + [Snapshot(t, Failed, id, kind, Granted(run.checkpoint.value, run.exit).value)])
               else s
  {
    hide Latest, LatestTerminal;
    var id := Latest(s.db.runs, t);
    var run := s.db.RunOf(id);
    assert ResumeCandidate(s.db, t) ==
      Some(Candidate(Failed, id, run.of.sessionID, run.exit, s.db.TaskOf(t).continuation, run.checkpoint));
  }

  /** The claim half: it is accepted exactly when the second clock allows it. */
  lemma ClaimAccepts(db: Db, t: nat, kind: ResumeKind, session: SessionState, startedAt: int, lease: int, token: Token)
    requires db.HasTask(t) && db.TaskOf(t).status.Failed? && lease > 0 && Latest(db.runs, t) > 0
    ensures var id := Latest(db.runs, t);
            var p := ClaimParams(t, Failed, id, session, startedAt, lease);
            var (after, r) := StartAttempt(db, p, AuthorizationOf(kind), token);
            && (r.Err? <==> !MayResume(db, t, kind, id, startedAt, startedAt))
            && (r.Err? ==> after == db)
            && (r.Ok? ==> after == Db(db.tasks[t - 1 := Task(InProgress, NoContinuation)],
                db.runs + [NewRun(p, token)], db.comments))
  {
    hide Latest;
  }

  /** The claim took over run id of task t and nothing else happened. */
  predicate TakesOver(db: Db, after: Db, t: nat, id: nat)
    requires db.HasTask(t) && db.HasRun(id) && db.RunOf(id).checkpoint.Some?
  {
    var c := db.RunOf(id).checkpoint.value;
    && |after.runs| == |db.runs| + 1 && after.runs[..|db.runs|] == db.runs
    && after.tasks == db.tasks[t - 1 := Task(InProgress, NoContinuation)] && after.comments == db.comments
    && var run := after.runs[|db.runs|];
    && run.status.RunRunning? && run.checkpoint.None?
    && run.of.taskID == t && run.of.startStep == c.next && run.of.sessionID == c.id
  }

  lemma ResumeThenClaim(
    s: System, t: nat, kind: ResumeKind, expectedRunID: nat, time: int, startedAt: int, lease: int, token: Token)
    requires s.db.HasTask(t) && s.db.TaskOf(t).status.Failed? && lease > 0
    requires Latest(s.db.runs, t) > 0 && LatestTerminal(s.db.runs, t) == Latest(s.db.runs, t)
    requires Resumable(s.db.RunOf(Latest(s.db.runs, t)))
    ensures var id := Latest(s.db.runs, t);
            var after := ResumeAndClaim(s, t, kind, expectedRunID, time, startedAt, lease, token).db;
            if MayResume(s.db, t, kind, expectedRunID, time, startedAt) then TakesOver(s.db, after, t, id)
                else after == s.db
  {
    hide StartAttempt, DoResume, ResumeCandidate, Latest, LatestTerminal, MayResume, TakesOver;
    var id := Latest(s.db.runs, t);
    var run := s.db.RunOf(id);
    ResumePrepares(s, t, kind, expectedRunID, time);
    var prepared := Granted(run.checkpoint.value, run.exit).value;
    ClaimAccepts(s.db, t, kind, prepared, startedAt, lease, token);
    BothClocks(s.db, t, kind, expectedRunID, time, startedAt);
    var resumed := DoResume(s, t, kind, expectedRunID, time);
    if !MayResume(s.db, t, kind, expectedRunID, time, time) {
      assert DoClaim(resumed, |s.snapshots|, startedAt, lease, token) == s;
    } else {
      assert resumed.snapshots[|s.snapshots|] == Snapshot(t, Failed, id, kind, prepared);
    }
    if MayResume(s.db, t, kind, expectedRunID, time, startedAt) {
      var p := ClaimParams(t, Failed, id, prepared, startedAt, lease);
      Taken(s.db, StartAttempt(s.db, p, AuthorizationOf(kind), token).0, t, id, p, token);
    }
  }

  lemma BothClocks(db: Db, t: nat, kind: ResumeKind, expectedRunID: nat, time: int, startedAt: int)
    requires db.HasTask(t) && Latest(db.runs, t) > 0
    ensures MayResume(db, t, kind, expectedRunID, time, startedAt) <==>
            MayResume(db, t, kind, expectedRunID, time, time)
            && MayResume(db, t, kind, Latest(db.runs, t), startedAt, startedAt)
  {
    hide Latest;
  }

  lemma Taken(db: Db, after: Db, t: nat, id: nat, p: StartParams, token: Token)
    requires db.HasTask(t) && db.HasRun(id) && Resumable(db.RunOf(id))
    requires p == ClaimParams(t, Failed, id, Granted(db.RunOf(id).checkpoint.value, db.RunOf(id).exit).value,
        p.startedAt, p.lease)
    requires after == Db(db.tasks[t - 1 := Task(InProgress, NoContinuation)], db.runs + [NewRun(p, token)], db.comments)
    ensures TakesOver(db, after, t, id)
  {
  }

  /** After every history, a failed task can be resumed exactly when its continuation allows:
      the resume then creates the task's next run, which takes over the failed one's
      checkpoint, and otherwise no table changes. No failure is ever lost, whatever stale
      callers, crashes and recoveries came before. */
  lemma FailuresAreResumable(
    actions: seq<Action>, t: nat, kind: ResumeKind, expectedRunID: nat, time: int,
    startedAt: int, lease: int, token: Token)
    requires After(actions).db.HasTask(t) && After(actions).db.TaskOf(t).status.Failed? && lease > 0
    ensures var s := After(actions);
            var id := Latest(s.db.runs, t);
            var after := ResumeAndClaim(s, t, kind, expectedRunID, time, startedAt, lease, token).db;
            && id > 0 && s.db.RunOf(id).checkpoint.Some?
            && if MayResume(s.db, t, kind, expectedRunID, time, startedAt) then TakesOver(s.db, after, t, id)
                else after == s.db
  {
    FailureIsThere(actions, t);
    hide *;
    ResumeThenClaim(After(actions), t, kind, expectedRunID, time, startedAt, lease, token);
  }

  /** What was decided when a run was finalized. */
  lemma DecisionOf(row: Run, id: nat, trail: Trail, plan: Plan)
    requires RowOk(row, id, trail, plan) && !row.status.RunRunning?
    ensures trail.closing.Some? && row.finishedAt.Some? && row.checkpoint.Some?
    ensures row.exit.ExitInterrupted? ==> trail.closing.value.continuation == Scheduled(row.finishedAt.value)
    ensures row.exit.ExitTokenBudgetExhausted? && trail.closing.value.resetInterval > 0 ==>
      && row.checkpoint.value.haltedAt.Some?
      && trail.closing.value.continuation.EligibleAt()
          == Some(row.checkpoint.value.haltedAt.value + trail.closing.value.resetInterval)
  {
    hide AttemptOutput, Reconcile;
    var c := row.checkpoint.value;
    if c.halt.Terminal() {
      CredibleHalt(c, id, row.of, trail.birth, plan);
    }
  }

  /** An interruption is always put back into the queue, due from the moment it was recorded,
      and an exhaustion finalized with a positive reset interval is too, due that interval
      after it was observed, unless it was stopped. The scheduler selects both. */
  lemma ServersRetryByThemselves(actions: seq<Action>, t: nat)
    requires After(actions).db.HasTask(t) && After(actions).db.TaskOf(t).status.Failed?
    ensures var s := After(actions);
            var id := Latest(s.db.runs, t);
            && id > 0 && |s.trail| == |s.db.runs|
            && var run, closing := s.db.RunOf(id), s.trail[id - 1].closing;
            && closing.Some? && run.finishedAt.Some? && run.checkpoint.Some?
            && (run.exit.ExitInterrupted? ==>
                  s.db.TaskOf(t).continuation == Scheduled(run.finishedAt.value) && Continuable(s.db, t))
            && (run.exit.ExitTokenBudgetExhausted? && closing.value.resetInterval > 0 ==>
                  && run.checkpoint.value.haltedAt.Some?
                  && var due := run.checkpoint.value.haltedAt.value + closing.value.resetInterval;
                  && s.db.TaskOf(t).continuation.EligibleAt() == Some(due)
                  && (Continuable(s.db, t) <==> !closing.value.continuation.Stopped?))
  {
    var s := After(actions);
    var id := Latest(s.db.runs, t);
    InvariantAlways(actions);
    hide Play, LinkOk, FileOk, SnapshotOk, RecoveryOk, OwnerOk, RowOk, Latest;
    assert TaskOk(s, t);
    assert RunOk(s, id - 1);
    DecisionOf(s.db.RunOf(id), id, s.trail[id - 1], s.plans[s.db.RunOf(id).of.sessionID]);
  }
}
