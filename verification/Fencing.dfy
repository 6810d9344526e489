/** Safety over whole histories: who can change a run, and what recovery does to one. */
module Fencing {
  import opened Base
  import opened Domain
  import opened Plans
  import opened Agent
  import opened Driving
  import opened Store
  import opened Runner
  import opened Protocol
  import opened Invariant
  import opened Preservation
  import opened Steps

  function After(actions: seq<Action>): System
  {
    Play(INITIAL, actions)
  }

  // ---- finalized rows ----

  /** Every row of runs that is finalized is in later, the same. */
  predicate KeepsFinalized(runs: seq<Run>, later: seq<Run>)
  {
    |runs| <= |later| && forall i :: 0 <= i < |runs| && !runs[i].status.RunRunning? ==> later[i] == runs[i]
  }

  lemma ClaimKeepsFinalized(db: Db, p: StartParams, authorization: StartAuthorization, token: Token)
    ensures KeepsFinalized(db.runs, StartAttempt(db, p, authorization, token).0.runs)
  {
    hide Claimable, Refusal;
  }

  lemma OwnerKeepsFinalized(db: Db, id: nat, token: Token, output: string, used: int,
      c: SessionState, duration: int, now: int)
    ensures KeepsFinalized(db.runs, UpdateProgress(db, id, token, output, used, c, now).0.runs)
    ensures KeepsFinalized(db.runs, RenewLease(db, id, token, duration, now).0.runs)
  {
  }

  lemma FinishKeepsFinalized(db: Db, p: FinishParams, authorization: FinishAuthorization, now: int)
    ensures KeepsFinalized(db.runs, FinishAttempt(db, p, authorization, now).0.runs)
  {
  }

  /** A step adds rows or rewrites running ones; it leaves every finalized row as it is. */
  lemma StepKeepsFinalized(s: System, a: Action)
    ensures KeepsFinalized(s.db.runs, Next(s, a).db.runs)
  {
    hide StartAttempt, UpdateProgress, RenewLease, FinishAttempt, KeepsFinalized;
    hide Advance, OwnerParams, RecoveryParams, Reconcile, PlannedSteps, Start, BindAttempt, ClaimParams;
    hide ResumeCandidate, PrepareResume, Unscheduled;
    KeepingIsFinalized(s.db.runs);
    match a {
      case Claim(k, startedAt, lease, token) =>
        if k < |s.snapshots| {
          var snap := s.snapshots[k];
          ClaimKeepsFinalized(s.db,
              ClaimParams(snap.taskID, snap.status, snap.previousRun, snap.session, startedAt, lease),
                              AuthorizationOf(snap.kind), token);
        }
      case PublishBinding(i) =>
        if i < |s.owners| && i < |s.db.runs| && s.owners[i].Bound? {
          OwnerKeepsFinalized(s.db, i + 1, s.db.runs[i].of.token, "", s.owners[i].session.used,
              s.owners[i].session, 0, s.now);
        }
      case Renew(i, duration) =>
        if i < |s.owners| && i < |s.db.runs| && !s.owners[i].Gone? {
          OwnerKeepsFinalized(s.db, i + 1, s.db.runs[i].of.token, "", 0, s.owners[i].session, duration, s.now);
        }
      case Commit(i, cancelled, time) =>
        if MayCommit(s, i) {
          var move := Advance(s.owners[i].session, cancelled, time);
          OwnerKeepsFinalized(s.db, i + 1, s.db.runs[i].of.token, Join(Extend(s.owners[i].lines, move.line), "\n"),
                              move.state.used, move.state, 0, s.now);
        }
      case Finish(i, time, resetInterval, text) =>
        if i < |s.owners| && i < |s.db.runs| && s.owners[i].Live? {
          FinishKeepsFinalized(s.db, FinishCall(s, i, time, resetInterval, text), ByOwner, s.now);
        }
      case Recover(r, time, resetInterval) =>
        if MayRecover(s, r) {
          FinishKeepsFinalized(s.db, RecoverCall(s, r, time, resetInterval), ByRecovery, s.now);
        }
      case _ =>
    }
  }

  lemma KeepingIsFinalized(runs: seq<Run>)
    ensures KeepsFinalized(runs, runs)
  {
  }

  /** A finalized run is finalized for good: after any further history its row is the same,
      so a run has one terminal outcome and one terminal checkpoint. */
  lemma {:induction false} FinalizedForever(s: System, later: seq<Action>, i: nat)
    requires i < |s.db.runs| && !s.db.runs[i].status.RunRunning?
    ensures i < |Play(s, later).db.runs| && Play(s, later).db.runs[i] == s.db.runs[i]
  {
    if |later| > 0 {
      FinalizedForever(s, later[..|later| - 1], i);
      StepKeepsFinalized(Play(s, later[..|later| - 1]), later[|later| - 1]);
    }
  }

  /** Everything the executor that claimed run i + 1 can do. */
  predicate ActsFor(a: Action, i: nat)
  {
    a == Bind(i) || a == Save(i) || a == PublishBinding(i) || (a.Renew? && a.run == i) || (a.Commit? && a.run == i)
    || (a.Finish? && a.run == i) || a == Crash(i)
  }

  /** Once a run has been finalized its executor is fenced off for good: whatever has happened
      meanwhile and whatever it does next, no row of any table changes. */
  lemma FencedForever(s: System, later: seq<Action>, i: nat, a: Action)
    requires i < |s.db.runs| && !s.db.runs[i].status.RunRunning? && ActsFor(a, i)
    ensures Next(Play(s, later), a).db == Play(s, later).db
  {
    FinalizedForever(s, later, i);
    hide Play, Next;
    OwnerIsFenced(Play(s, later), i, a);
  }

  lemma OwnerIsFenced(s: System, i: nat, a: Action)
    requires i < |s.db.runs| && !s.db.runs[i].status.RunRunning? && ActsFor(a, i)
    ensures Next(s, a).db == s.db
  {
    match a {
      case PublishBinding(_) => BindingIsFenced(s, i);
      case Renew(_, duration) => RenewalIsFenced(s, i, duration);
      case Commit(_, cancelled, time) => CommitIsFenced(s, i, cancelled, time);
      case Finish(_, time, resetInterval, text) => FinishIsFenced(s, i, time, resetInterval, text);
      case _ =>
    }
  }

  lemma BindingIsFenced(s: System, i: nat)
    requires i < |s.db.runs| && !s.db.runs[i].status.RunRunning?
    ensures DoPublishBinding(s, i).db == s.db
  {
  }

  lemma RenewalIsFenced(s: System, i: nat, duration: int)
    requires i < |s.db.runs| && !s.db.runs[i].status.RunRunning?
    ensures DoRenew(s, i, duration).db == s.db
  {
  }

  lemma CommitIsFenced(s: System, i: nat, cancelled: bool, time: int)
    requires i < |s.db.runs| && !s.db.runs[i].status.RunRunning?
    ensures DoCommit(s, i, cancelled, time).db == s.db
  {
    hide Advance;
  }

  lemma FinishIsFenced(s: System, i: nat, time: int, resetInterval: int, text: string)
    requires i < |s.db.runs| && !s.db.runs[i].status.RunRunning?
    ensures DoFinish(s, i, time, resetInterval, text).db == s.db
  {
    hide Terminalize, AttemptOutput;
  }

  /** Every step that changes a run changes the newest run of its task, while that is running. */
  lemma ChangesHitTheLatestRun(actions: seq<Action>, a: Action, i: nat)
    requires i < |After(actions).db.runs|
    ensures var s := After(actions);
            && i < |Next(s, a).db.runs|
            && (Next(s, a).db.runs[i] != s.db.runs[i] ==>
                  s.db.runs[i].status.RunRunning? && Latest(s.db.runs, s.db.runs[i].of.taskID) == i + 1)
  {
    var s := After(actions);
    InvariantAlways(actions);
    hide LinkOk, TaskOk, FileOk, SnapshotOk, RecoveryOk, RowOk, OwnerOk, Play;
    assert RunOk(s, i);
    StepKeepsFinalized(s, a);
  }

  /** A done task is done for good. */
  lemma {:induction false} DoneForever(s: System, later: seq<Action>, t: nat)
    requires s.db.HasTask(t) && s.db.TaskOf(t).status.Done?
    ensures Play(s, later).db.HasTask(t) && Play(s, later).db.TaskOf(t) == s.db.TaskOf(t)
  {
    if |later| > 0 {
      DoneForever(s, later[..|later| - 1], t);
      StepKeepsDone(Play(s, later[..|later| - 1]), later[|later| - 1], t);
    }
  }

  lemma StepKeepsDone(s: System, a: Action, t: nat)
    requires s.db.HasTask(t) && s.db.TaskOf(t).status.Done?
    ensures Next(s, a).db.HasTask(t) && Next(s, a).db.TaskOf(t) == s.db.TaskOf(t)
  {
    hide Advance, Terminalize, Reconcile, Granted, AttemptOutput, PlannedSteps, Start, BindAttempt;
    hide LateDecision, FinishCall, RecoverCall;
  }

  /** Only a claim adds a run, and no step changes what a claim wrote. */
  lemma OthersKeepIdentities(s: System, a: Action)
    requires !a.Claim?
    ensures |Next(s, a).db.runs| == |s.db.runs|
    ensures forall i :: 0 <= i < |s.db.runs| ==> Next(s, a).db.runs[i].of == s.db.runs[i].of
  {
    hide Advance, OwnerParams, RecoveryParams, Reconcile, PlannedSteps, Start, BindAttempt, AttemptOutput;
    hide ResumeCandidate, PrepareResume, Unscheduled, LateDecision, Latest;
  }

  // ---- the task and run tables agree ----

  function TaskStatusAfter(exit: ExitReason): TaskStatus
  {
    if exit.ExitCompleted? then Done else Failed
  }

  /** After every history: a todo task has no run; an in-progress task has exactly one running
      run, its newest; a failed or done task has runs, none of them running, and its status is
      the one its newest run's outcome maps to. */
  lemma TasksAndRunsAgree(actions: seq<Action>, t: nat)
    requires After(actions).db.HasTask(t)
    ensures var s := After(actions);
            var ids, status := Ids(s.db.runs, t), s.db.TaskOf(t).status;
            && (status.Todo? <==> ids == [])
            && (forall k :: 0 <= k < |ids| ==>
                  && s.db.HasRun(ids[k])
                  && (s.db.RunOf(ids[k]).status.RunRunning? <==> status.InProgress? && k == |ids| - 1))
            && (status.InProgress? ==> ids != [])
            && (status.Failed? || status.Done? ==>
                  ids != [] && status == TaskStatusAfter(s.db.RunOf(ids[|ids| - 1]).exit))
  {
    var s := After(actions);
    InvariantAlways(actions);
    hide LinkOk, FileOk, SnapshotOk, RecoveryOk, RowOk, OwnerOk, Play;
    assert TaskOk(s, t);
    var ids := Ids(s.db.runs, t);
    IdsAreTheRuns(s.db.runs, t);
    forall k | 0 <= k < |ids| ensures s.db.HasRun(ids[k]) &&
      (s.db.RunOf(ids[k]).status.RunRunning? <==> s.db.TaskOf(t).status.InProgress? && k == |ids| - 1) {
      assert RunOk(s, ids[k] - 1);
    }
  }

  // ---- recovery ----

  /** The run's executor has published state c and will publish nothing more. */
  predicate Parked(s: System, i: nat, c: SessionState)
  {
    && i < |s.db.runs| && i < |s.owners|
    && (s.owners[i].Gone? || (s.owners[i].Live? && s.owners[i].session == c))
    && (s.db.runs[i].status.RunRunning? ==> s.db.runs[i].checkpoint == Some(c))
  }

  /** The actions that can change a row or its executor. */
  predicate Writes(a: Action)
  {
    a.Bind? || a.Save? || a.PublishBinding? || a.Renew? || a.Commit? || a.Finish? || a.Crash? || a.Recover? || a.Claim?
  }

  lemma OthersOnlyRead(s: System, a: Action)
    requires !Writes(a)
    ensures Next(s, a).db.runs == s.db.runs && Next(s, a).owners == s.owners
  {
    hide Reconcile, Granted, PlannedSteps, Start, LateDecision;
  }

  lemma StepKeepsParked(s: System, a: Action, i: nat, c: SessionState)
    requires Parked(s, i, c) && c.halt.Terminal() && |s.owners| == |s.db.runs|
    ensures Parked(Next(s, a), i, c) && |Next(s, a).owners| == |Next(s, a).db.runs|
    ensures Next(s, a).db.runs[i].of == s.db.runs[i].of
  {
    hide Next, Parked;
    if !Writes(a) {
      assert Parked(Next(s, a), i, c) by {
        OthersKeepParked(s, a, i, c);
      }
      OthersOnlyRead(s, a);
    } else if a.Claim? || a.Finish? || a.Recover? {
      TransactionsKeepParked(s, a, i, c);
    } else {
      OwnersKeepParked(s, a, i, c);
    }
    ParkedIsThere(s, i, c);
  }

  lemma ParkedIsThere(s: System, i: nat, c: SessionState)
    requires Parked(s, i, c)
    ensures i < |s.db.runs|
  {
  }

  lemma OthersKeepParked(s: System, a: Action, i: nat, c: SessionState)
    requires Parked(s, i, c) && !Writes(a)
    ensures Parked(Next(s, a), i, c)
  {
    hide Next;
    OthersOnlyRead(s, a);
  }

  lemma TransactionsKeepParked(s: System, a: Action, i: nat, c: SessionState)
    requires Parked(s, i, c) && c.halt.Terminal() && |s.owners| == |s.db.runs| && (a.Claim? || a.Finish? || a.Recover?)
    ensures Parked(Next(s, a), i, c) && |Next(s, a).owners| == |Next(s, a).db.runs|
    ensures i < |s.db.runs| && Next(s, a).db.runs[i].of == s.db.runs[i].of
  {
    hide FinishCall, RecoverCall, Refusal, Claimable, ClaimParams;
  }

  lemma OwnersKeepParked(s: System, a: Action, i: nat, c: SessionState)
    requires Parked(s, i, c) && c.halt.Terminal() && |s.owners| == |s.db.runs|
    requires a.Bind? || a.Save? || a.PublishBinding? || a.Renew? || a.Commit? || a.Crash?
    ensures Parked(Next(s, a), i, c) && |Next(s, a).owners| == |Next(s, a).db.runs|
    ensures i < |s.db.runs| && Next(s, a).db.runs[i].of == s.db.runs[i].of
  {
    hide Advance, BindAttempt;
  }

  lemma {:induction false} ParkedStays(s: System, later: seq<Action>, i: nat, c: SessionState)
    requires Parked(s, i, c) && c.halt.Terminal() && |s.owners| == |s.db.runs|
    ensures Parked(Play(s, later), i, c) && |Play(s, later).owners| == |Play(s, later).db.runs|
    ensures Play(s, later).db.runs[i].of == s.db.runs[i].of
  {
    if |later| > 0 {
      ParkedStays(s, later[..|later| - 1], i, c);
      StepKeepsParked(Play(s, later[..|later| - 1]), later[|later| - 1], i, c);
    }
  }

  /** Recovery refines normal finalization. Suppose an executor has published a completed,
      failed or exhausted state and then does not finalize the run. However long the downtime,
      and whatever happens meanwhile, recovery with the same reset interval sends what the
      executor would have sent: same outcome, output, tokens, error, comment, checkpoint and
      continuation, eligibility time included. Only the owner token, which recovery does not
      use, and the time of finalization differ. */
  lemma RecoveryRefinesFinish(
    actions: seq<Action>, i: nat, later: seq<Action>, finishTime: int, recoverTime: int,
    resetInterval: int, text: string)
    requires var s := After(actions);
             && i < |s.db.runs| && s.db.runs[i].status.RunRunning? && i < |s.owners| && s.owners[i].Live?
             && s.owners[i].session.halt.Terminal() && !s.owners[i].session.halt.HaltInterrupted?
    requires i < |Play(After(actions), later).db.runs| && Play(After(actions), later).db.runs[i].status.RunRunning?
    ensures var s, t := After(actions), Play(After(actions), later);
            var row := t.db.runs[i];
            && row.checkpoint.Some?
            && var source := row.checkpoint.value;
            && source.next <= |source.steps|
            && Reconcile(source, i + 1, row.of) == Ok(source)
            && RecoveryParams(i + 1, row.of, source, resetInterval, recoverTime)
               == FinishCall(s, i, finishTime, resetInterval, text).(token := 0, finishedAt := recoverTime)
  {
    var s := After(actions);
    InvariantAlways(actions);
    hide LinkOk, TaskOk, FileOk, SnapshotOk, RecoveryOk, Play, Summary, Accounted;
    assert RunOk(s, i);
    var c := s.owners[i].session;
    ParkedStays(s, later, i, c);
    var row := s.db.runs[i];
    OwnReconciles(c, i + 1, row.of, s.trail[i].birth, s.plans[row.of.sessionID]);
    HaltIsTimed(c, s.plans[row.of.sessionID]);
  }

  lemma HaltIsTimed(c: SessionState, plan: Plan)
    requires Accounted(c, plan) && c.halt.Terminal()
    ensures c.haltedAt.Some?
  {
  }

  /** While a run is running, its row holds exactly what its executor has streamed: the
      joined lines, the tokens used and the session itself. */
  lemma StreamedOutputIsStored(actions: seq<Action>, i: nat)
    requires var s := After(actions);
             i < |s.db.runs| && i < |s.owners| && s.owners[i].Live? && s.db.runs[i].status.RunRunning?
    ensures var s := After(actions);
            && s.db.runs[i].checkpoint == Some(s.owners[i].session)
            && s.db.runs[i].output == Join(s.owners[i].lines, "\n")
            && s.db.runs[i].tokensUsed == s.owners[i].session.used
  {
    InvariantAlways(actions);
    hide LinkOk, TaskOk, FileOk, SnapshotOk, RecoveryOk, Play;
    assert RunOk(After(actions), i);
  }

  // ---- the success comment ----

  function CommentsOn(comments: seq<Comment>, t: nat): nat
  {
    if |comments| == 0 then 0
    else CommentsOn(comments[..|comments| - 1], t) + if comments[|comments| - 1].taskID == t then 1 else 0
  }

  /** A task has its success comment exactly when it is done. */
  predicate CommentFits(db: Db, t: nat)
  {
    CommentsOn(db.comments, t) == if db.HasTask(t) && db.TaskOf(t).status.Done? then 1 else 0
  }

  lemma CommentAppend(comments: seq<Comment>, c: Comment, t: nat)
    ensures CommentsOn(comments + [c], t) == CommentsOn(comments, t) + if c.taskID == t then 1 else 0
  {
    assert (comments + [c])[..|comments|] == comments;
  }

  lemma FinishKeepsComments(db: Db, p: FinishParams, authorization: FinishAuthorization, now: int, t: nat)
    requires CommentFits(db, t)
    requires p.author != "" <==> p.completion.outcome.AttemptCompleted?
    ensures CommentFits(FinishAttempt(db, p, authorization, now).0, t)
  {
    CommentAppend(db.comments, Comment(p.taskID, p.author, p.body, p.finishedAt), t);
  }

  lemma StepKeepsComments(s: System, a: Action, t: nat)
    requires CommentFits(s.db, t)
    ensures CommentFits(Next(s, a).db, t)
  {
    hide FinishAttempt, CompletionFor, Summary, CommentFits, AttemptOutput;
    match a {
      case Finish(i, time, resetInterval, text) =>
        if Next(s, a) != s {
          FinishKeepsComments(s.db, FinishCall(s, i, time, resetInterval, text), ByOwner, s.now, t);
        }
      case Recover(r, time, resetInterval) =>
        if Next(s, a) != s {
          FinishKeepsComments(s.db, RecoverCall(s, r, time, resetInterval), ByRecovery, s.now, t);
        }
      case _ =>
        OthersKeepComments(s, a, t);
    }
  }

  lemma OthersKeepComments(s: System, a: Action, t: nat)
    requires CommentFits(s.db, t) && !a.Finish? && !a.Recover?
    ensures CommentFits(Next(s, a).db, t)
  {
    hide Advance, Reconcile, Granted, PlannedSteps, Start, BindAttempt;
    hide LateDecision, CommentsOn, Refusal, Latest, Unscheduled;
    assert Next(s, a).db.comments == s.db.comments;
  }

  /** After every history a task carries one agent comment if it is done and none otherwise,
      whoever finalized it. */
  lemma {:induction false} OneCommentWhenDone(actions: seq<Action>, t: nat)
    ensures CommentFits(After(actions).db, t)
  {
    if |actions| > 0 {
      OneCommentWhenDone(actions[..|actions| - 1], t);
      StepKeepsComments(After(actions[..|actions| - 1]), actions[|actions| - 1], t);
    }
  }
}
