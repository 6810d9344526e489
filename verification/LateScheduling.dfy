/** Decisions written late: a server reads an exhausted run of an unscheduled task and stores
    its decision with a write that is tied to the task only. */
module LateScheduling {
  import opened Base
  import opened Domain
  import opened Plans
  import opened Agent
  import opened Driving
  import opened Store
  import opened Runner
  import opened Protocol
  import opened Invariant
  import opened Steps
  import opened Fencing

  // ---- what a server holds between read and write ----

  /** The run that was read is a finalized exhaustion of the task, and the decision is the one
      its row asks for. */
  predicate HeldDecision(db: Db, w: LateWrite)
  {
    && db.HasRun(w.runID)
    && var run := db.RunOf(w.runID);
    && !run.status.RunRunning? && run.of.taskID == w.taskID
    && run.exit.ExitTokenBudgetExhausted? && run.finishedAt.Some?
    && w.decision == LateDecision(run, w.resetInterval)
  }

  predicate HeldDecisions(s: System)
  {
    forall k :: 0 <= k < |s.lateWrites| ==> HeldDecision(s.db, s.lateWrites[k])
  }

  lemma OthersKeepLateWrites(s: System, a: Action)
    requires !a.SeeUnscheduled?
    ensures Next(s, a).lateWrites == s.lateWrites
  {
    hide Advance, OwnerParams, RecoveryParams, Reconcile, PlannedSteps, Start, BindAttempt, ClaimParams, AttemptOutput;
    hide ResumeCandidate, PrepareResume, Unscheduled, StartAttempt, FinishAttempt, UpdateProgress, RenewLease;
  }

  lemma ReadingHolds(s: System, t: nat, resetInterval: int)
    requires Inv(s) && Unscheduled(s.db, t)
    ensures var id := Latest(s.db.runs, t);
            HeldDecision(s.db, LateWrite(t, LateDecision(s.db.RunOf(id), resetInterval), id, resetInterval))
  {
    hide LinkOk, FileOk, SnapshotOk, RecoveryOk, RowOk, OwnerOk, TaskOk, LateDecision, Latest;
    assert TaskOk(s, t);
    FailedIsFinalized(s, t);
  }

  lemma FailedIsFinalized(s: System, t: nat)
    requires s.db.HasTask(t) && |s.db.runs| == |s.trail| && TaskOk(s, t) && s.db.TaskOf(t).status.Failed?
    ensures Latest(s.db.runs, t) > 0 && !s.db.RunOf(Latest(s.db.runs, t)).status.RunRunning?
  {
  }

  lemma HeldStays(db: Db, later: Db, w: LateWrite)
    requires HeldDecision(db, w) && KeepsFinalized(db.runs, later.runs)
    ensures HeldDecision(later, w)
  {
    hide LateDecision;
    assert later.runs[w.runID - 1] == db.runs[w.runID - 1];
  }

  lemma {:induction false} DecisionsAreHeld(actions: seq<Action>)
    ensures HeldDecisions(After(actions))
  {
    if |actions| > 0 {
      var n := |actions| - 1;
      var s, a := After(actions[..n]), actions[n];
      DecisionsAreHeld(actions[..n]);
      InvariantAlways(actions[..n]);
      StepHolds(s, a);
    }
  }

  lemma StepHolds(s: System, a: Action)
    requires Inv(s) && HeldDecisions(s)
    ensures HeldDecisions(Next(s, a))
  {
    hide Inv, HeldDecision, KeepsFinalized, LateDecision, Unscheduled, Latest;
    StepKeepsFinalized(s, a);
    if a.SeeUnscheduled? {
      if Unscheduled(s.db, a.taskID) {
        ReadingHolds(s, a.taskID, a.resetInterval);
      }
    } else {
      OthersKeepLateWrites(s, a);
      forall k | 0 <= k < |s.lateWrites| ensures HeldDecision(Next(s, a).db, s.lateWrites[k]) {
        HeldStays(s.db, Next(s, a).db, s.lateWrites[k]);
      }
    }
  }

  // ---- what an accepted late write stores ----

  /** Write k would be accepted. */
  predicate Lands(s: System, k: nat)
  {
    k < |s.lateWrites| && s.db.HasTask(s.lateWrites[k].taskID)
    && s.db.TaskOf(s.lateWrites[k].taskID) == Task(Failed, NoContinuation)
  }

  /** The decision is the one owed to the task's newest run. */
  predicate IsOwed(db: Db, t: nat, decision: Continuation, resetInterval: int)
  {
    Unscheduled(db, t) && decision == Owed(db, t, resetInterval)
  }

  /** Two exhausted rows that late scheduling cannot tell apart. */
  predicate Alike(a: Run, b: Run)
  {
    b.exit.ExitTokenBudgetExhausted? && a.finishedAt == b.finishedAt && (a.tokensUsed > 0 <==> b.tokensUsed > 0)
  }

  /** An accepted late write stores the decision owed to the task's newest run if and only if
      the run that was read is still the newest, or the newest is an exhaustion finalized at
      the same instant that progressed alike. Otherwise the decision is a stray: it belongs to
      an older run of the task. */
  lemma LateWriteIsOwedIffCurrent(actions: seq<Action>, k: nat)
    requires Lands(After(actions), k) && After(actions).lateWrites[k].resetInterval > 0
    ensures var s := After(actions);
            var w := s.lateWrites[k];
            var id := Latest(s.db.runs, w.taskID);
            && s.db.HasRun(w.runID) && w.runID <= id
            && Next(s, WriteLate(k)).db.TaskOf(w.taskID) == Task(Failed, w.decision)
            && (IsOwed(s.db, w.taskID, w.decision, w.resetInterval) <==>
                  w.runID == id || Alike(s.db.RunOf(w.runID), s.db.RunOf(id)))
  {
    var s := After(actions);
    var w := s.lateWrites[k];
    DecisionsAreHeld(actions);
    InvariantAlways(actions);
    hide Play, Inv, Latest;
    assert HeldDecision(s.db, w);
    LatestIsNewest(s.db.runs, w.taskID, w.runID - 1);
    NewestFailure(s, w.taskID);
    SameLateDecision(s.db.RunOf(w.runID), s.db.RunOf(Latest(s.db.runs, w.taskID)), w.resetInterval);
  }

  lemma NewestFailure(s: System, t: nat)
    requires Inv(s) && s.db.HasTask(t) && s.db.TaskOf(t).status.Failed?
    ensures var id := Latest(s.db.runs, t);
            id > 0 && !s.db.RunOf(id).status.RunRunning? && s.db.RunOf(id).finishedAt.Some?
  {
    hide LinkOk, FileOk, SnapshotOk, RecoveryOk, OwnerOk, OwnState, AdoptedState, AttemptOutput, Latest;
    assert TaskOk(s, t);
    assert RunOk(s, Latest(s.db.runs, t) - 1);
  }

  /** With a positive interval a late decision tells when the run was finalized and whether
      it progressed, and nothing else. */
  lemma SameLateDecision(a: Run, b: Run, resetInterval: int)
    requires a.finishedAt.Some? && b.finishedAt.Some? && resetInterval > 0
    ensures LateDecision(a, resetInterval) == LateDecision(b, resetInterval) <==>
            a.finishedAt == b.finishedAt && (a.tokensUsed > 0 <==> b.tokensUsed > 0)
  {
  }

  /** What any late decision that lands on a failure of another kind or of a later run does:
      the failure may be resumed by hand from the decision's time on and not before; the
      scheduler selects it exactly if the decision is to retry and the run is not an agent
      error, and then the automatic claim that goes with its exit is accepted from that time
      on; the other automatic claim is always refused. */
  lemma StrayDecision(db: Db, t: nat, decision: Continuation, p: StartParams, token: Token)
    requires db.HasTask(t) && db.TaskOf(t) == Task(Failed, NoContinuation) && decision.EligibleAt().Some?
    requires Latest(db.runs, t) > 0
    requires p.taskID == t && p.expectedStatus.Failed? && p.expectedRunID == Latest(db.runs, t) && p.lease > 0
    ensures var (after, ok) := WriteDecision(db, t, decision);
            var exit, due := db.RunOf(Latest(db.runs, t)).exit, decision.EligibleAt().value <= p.startedAt;
            && ok && after.TaskOf(t).continuation == decision && after.runs == db.runs
            && (Continuable(after, t) <==>
                  decision.Scheduled? && (exit.ExitTokenBudgetExhausted? || exit.ExitInterrupted?))
            && (StartAttempt(after, p, OwnerStart, token).1.Ok? <==> due)
            && (!due ==> StartAttempt(after, p, OwnerStart, token) == (after, Err(NotEligible)))
            && (StartAttempt(after, p, AutomaticStart, token).1.Ok? <==>
                  decision.Scheduled? && due && exit.ExitTokenBudgetExhausted?)
            && (StartAttempt(after, p, InterruptedStart, token).1.Ok? <==>
                  decision.Scheduled? && due && exit.ExitInterrupted?)
  {
    hide Latest;
  }

  // ---- a stopped task waits for a human ----

  /** Action a is a claim of task t that a human asked for. */
  predicate ClaimsByHand(s: System, a: Action, t: nat)
  {
    a.Claim? && a.snapshot < |s.snapshots| && s.snapshots[a.snapshot].taskID == t
    && s.snapshots[a.snapshot].kind.ManualResume?
  }

  /** The task row and the task's runs are as before. */
  predicate TaskKept(db: Db, later: Db, t: nat)
    requires db.HasTask(t)
  {
    later.HasTask(t) && later.TaskOf(t) == db.TaskOf(t) && Ids(later.runs, t) == Ids(db.runs, t)
  }

  predicate StoppedTask(db: Db, t: nat)
  {
    db.HasTask(t) && db.TaskOf(t).status.Failed? && db.TaskOf(t).continuation.Stopped?
  }

  lemma ClaimKeepsStopped(db: Db, p: StartParams, authorization: StartAuthorization, token: Token, t: nat)
    requires StoppedTask(db, t) && (p.taskID == t ==> !authorization.OwnerStart?)
    ensures TaskKept(db, StartAttempt(db, p, authorization, token).0, t)
  {
    hide Refusal, Ids, Latest;
    LatestAppend(db.runs, NewRun(p, token), t);
  }

  lemma WritesKeepTask(db: Db, later: Db, t: nat)
    requires db.HasTask(t) && later.HasTask(t) && later.TaskOf(t) == db.TaskOf(t) && |later.runs| == |db.runs|
    requires forall i :: 0 <= i < |db.runs| ==> later.runs[i].of == db.runs[i].of
    ensures TaskKept(db, later, t)
  {
    LatestAgrees(db.runs, later.runs, t);
  }

  lemma OthersKeepStopped(s: System, a: Action, t: nat)
    requires StoppedTask(s.db, t) && !a.Claim?
    ensures Next(s, a).db.HasTask(t) && Next(s, a).db.TaskOf(t) == s.db.TaskOf(t)
  {
    hide Advance, OwnerParams, RecoveryParams, Reconcile, PlannedSteps, Start, BindAttempt, AttemptOutput;
    hide ResumeCandidate, PrepareResume, Unscheduled, LateDecision, UpdateProgress, RenewLease, FinishedRun, Latest;
    match a {
      case PublishBinding(_) => OwnersLeaveTasks(s, a);
      case Renew(_, _) => OwnersLeaveTasks(s, a);
      case Commit(_, _, _) => OwnersLeaveTasks(s, a);
      case _ =>
    }
  }

  lemma OwnersLeaveTasks(s: System, a: Action)
    requires a.PublishBinding? || a.Renew? || a.Commit?
    ensures Next(s, a).db.tasks == s.db.tasks
  {
    hide Advance, BindAttempt;
  }

  lemma StepKeepsStopped(s: System, a: Action, t: nat)
    requires StoppedTask(s.db, t) && !ClaimsByHand(s, a, t)
    ensures TaskKept(s.db, Next(s, a).db, t)
  {
    hide Ids, StartAttempt, ClaimParams;
    if a.Claim? {
      if a.snapshot < |s.snapshots| {
        var snap := s.snapshots[a.snapshot];
        var p := ClaimParams(snap.taskID, snap.status, snap.previousRun, snap.session, a.startedAt, a.lease);
        assert p.taskID == snap.taskID by {
          ClaimNames(snap, a.startedAt, a.lease);
        }
        ClaimKeepsStopped(s.db, p, AuthorizationOf(snap.kind), a.token, t);
      }
    } else {
      OthersKeepStopped(s, a, t);
      OthersKeepIdentities(s, a);
      WritesKeepTask(s.db, Next(s, a).db, t);
    }
  }

  lemma ClaimNames(snap: Snapshot, startedAt: int, lease: int)
    ensures ClaimParams(snap.taskID, snap.status, snap.previousRun, snap.session, startedAt, lease).taskID
        == snap.taskID
  {
  }

  /** A task stopped by anyone, be it finalization, recovery or late scheduling, is never
      retried automatically: through any further history in which no human's claim of it is
      made, its row stays as it is and it gets no further run. */
  lemma {:induction false} StoppedWaitsForAHuman(s: System, later: seq<Action>, t: nat)
    requires StoppedTask(s.db, t)
    requires forall n :: 0 <= n < |later| ==> !ClaimsByHand(Play(s, later[..n]), later[n], t)
    ensures TaskKept(s.db, Play(s, later).db, t)
  {
    hide Next, ClaimsByHand, Ids;
    if |later| > 0 {
      var n := |later| - 1;
      forall m | 0 <= m < n ensures !ClaimsByHand(Play(s, later[..n][..m]), later[..n][m], t) {
        assert later[..n][..m] == later[..m];
      }
      StoppedWaitsForAHuman(s, later[..n], t);
      StepKeepsStopped(Play(s, later[..n]), later[n], t);
    }
  }
}
