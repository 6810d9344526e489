/** No run is stranded: once the lease of a running run has expired, a server can always
    reconcile and finalize it, whatever its executor left behind. */
module Takeover {
  import opened Base
  import opened Domain
  import opened Plans
  import opened Agent
  import opened Store
  import opened Runner
  import opened Protocol
  import opened Invariant
  import opened Steps
  import opened Fencing

  // ---- a session serves one task ----

  /** home gives, for each session, the only task whose runs and snapshots use it. */
  predicate AtHome(s: System, home: seq<nat>)
  {
    && |home| == |s.plans|
    && (forall i :: 0 <= i < |s.db.runs| ==>
          s.db.runs[i].of.sessionID < |home| && home[s.db.runs[i].of.sessionID] == s.db.runs[i].of.taskID)
    && (forall k :: 0 <= k < |s.snapshots| ==>
          s.snapshots[k].session.id < |home| && home[s.snapshots[k].session.id] == s.snapshots[k].taskID)
  }

  /** Nothing that AtHome looks at has changed. */
  predicate SameHomes(s: System, t: System)
  {
    && t.plans == s.plans && t.snapshots == s.snapshots && |t.db.runs| == |s.db.runs|
    && forall i :: 0 <= i < |s.db.runs| ==> t.db.runs[i].of == s.db.runs[i].of
  }

  lemma OthersKeepHomes(s: System, a: Action)
    requires !a.Execute? && !a.Resume? && !a.Claim?
    ensures SameHomes(s, Next(s, a))
  {
    OthersKeepIdentities(s, a);
    hide Advance, OwnerParams, RecoveryParams, Reconcile, BindAttempt, AttemptOutput, Unscheduled;
    hide UpdateProgress, RenewLease, FinishAttempt, WriteDecision, LateDecision;
  }

  lemma ResumeKeepsHomes(s: System, home: seq<nat>, t: nat, kind: ResumeKind, expectedRunID: nat, time: int)
    requires Inv(s) && AtHome(s, home)
    ensures AtHome(DoResume(s, t, kind, expectedRunID, time), home)
  {
    hide RunOk, LinkOk, TaskOk, RecoveryOk, FileOk, SnapshotOk, Accounted, Inv;
    var after := DoResume(s, t, kind, expectedRunID, time);
    if after != s {
      var id := LatestTerminal(s.db.runs, t);
      assert id > 0;
      FinalizedRunIsResumable(s, id);
      var run := s.db.RunOf(id);
      assert Granted(run.checkpoint.value, run.exit) == Ok(after.snapshots[|s.snapshots|].session);
    }
  }

  lemma StepKeepsHomes(s: System, a: Action, home: seq<nat>) returns (after: seq<nat>)
    requires Inv(s) && AtHome(s, home)
    ensures AtHome(Next(s, a), after)
  {
    hide Inv, PlannedSteps, DoResume, ClaimParams, Claimable, Refusal, FreshSteps;
    after := home;
    match a {
      case Execute(t, _, _, _, _, _, _) =>
        if s.db.HasTask(t) && s.db.TaskOf(t).status.Todo? {
          after := home + [t];
        }
      case Resume(t, kind, expected, time) => ResumeKeepsHomes(s, home, t, kind, expected, time);
      case Claim(k, startedAt, lease, token) => ClaimKeepsHomes(s, home, k, startedAt, lease, token);
      case _ => OthersKeepHomes(s, a);
    }
  }

  lemma ClaimKeepsHomes(s: System, home: seq<nat>, k: nat, startedAt: int, lease: int, token: Token)
    requires AtHome(s, home)
    ensures AtHome(DoClaim(s, k, startedAt, lease, token), home)
  {
    hide Claimable, Refusal;
  }

  /** After every history each session belongs to one task. */
  lemma {:induction false} SessionsHaveHomes(actions: seq<Action>) returns (home: seq<nat>)
    ensures AtHome(After(actions), home)
  {
    if |actions| == 0 {
      home := [];
    } else {
      home := SessionsHaveHomes(actions[..|actions| - 1]);
      InvariantAlways(actions[..|actions| - 1]);
      hide Inv, AtHome, Next;
      home := StepKeepsHomes(After(actions[..|actions| - 1]), actions[|actions| - 1], home);
    }
  }

  // ---- recovery cannot fail ----

  /** What a server reads to reconcile a run: the checkpoint, or else the compatibility file. */
  function Source(s: System, i: nat): SessionState
    requires i < |s.db.runs| && s.db.runs[i].of.sessionID < |s.files|
  {
    var run := s.db.runs[i];
    if run.checkpoint.Some? then run.checkpoint.value else s.files[run.of.sessionID]
  }

  /** The allowance a run was claimed with is never negative. */
  lemma AllowanceIsNatural(s: System, i: nat)
    requires Inv(s) && i < |s.db.runs|
    ensures 0 <= s.db.runs[i].of.tokenBudget
  {
    hide RunOk, TaskOk, FileOk, SnapshotOk, RecoveryOk;
    assert LinkOk(s, i);
    var pred := s.trail[i].birth.pred;
    if pred > 0 {
      FinalizedRunIsResumable(s, pred);
    }
  }

  /** The compatibility file of a running run's session is not bound to a newer run: a newer
      run of the same session would be a newer run of the same task. */
  lemma FileIsNotAhead(s: System, i: nat, home: seq<nat>)
    requires Inv(s) && AtHome(s, home) && i < |s.db.runs| && s.db.runs[i].status.RunRunning?
    ensures s.db.runs[i].of.sessionID < |s.files|
    ensures var file := s.files[s.db.runs[i].of.sessionID];
            file.runID <= i + 1 && (file.runID == i + 1 ==> file.token == s.db.runs[i].of.token)
  {
    hide TaskOk, LinkOk, SnapshotOk, RecoveryOk, RowOk, OwnerOk, Accounted, Armed, Latest;
    assert RunOk(s, i);
    var x := s.db.runs[i].of.sessionID;
    assert FileOk(s, x);
    var file := s.files[x];
    if file.runID > i + 1 {
      assert s.db.runs[file.runID - 1].of.sessionID == x;
      LatestIsNewest(s.db.runs, s.db.runs[i].of.taskID, file.runID - 1);
      assert false;
    }
  }

  /** In every reached state, whatever a running run's executor left behind reconciles: the
      errors RecoverExpired guards against cannot happen. */
  lemma RunningRunsReconcile(actions: seq<Action>, i: nat)
    requires i < |After(actions).db.runs| && After(actions).db.runs[i].status.RunRunning?
    ensures var s := After(actions);
            && s.db.runs[i].of.sessionID < |s.files|
            && var r := Reconcile(Source(s, i), i + 1, s.db.runs[i].of);
            && r.Ok? && r.value.next <= |r.value.steps| && r.value.id == s.db.runs[i].of.sessionID
  {
    var s := After(actions);
    InvariantAlways(actions);
    var home := SessionsHaveHomes(actions);
    hide Play, Inv;
    FileIsNotAhead(s, i, home);
    AllowanceIsNatural(s, i);
    SourceReconciles(s, i);
  }

  lemma SourceReconciles(s: System, i: nat)
    requires Inv(s) && i < |s.db.runs| && s.db.runs[i].status.RunRunning? && s.db.runs[i].of.sessionID < |s.files|
    requires 0 <= s.db.runs[i].of.tokenBudget
    requires var file := s.files[s.db.runs[i].of.sessionID];
             file.runID <= i + 1 && (file.runID == i + 1 ==> file.token == s.db.runs[i].of.token)
    ensures var r := Reconcile(Source(s, i), i + 1, s.db.runs[i].of);
            r.Ok? && r.value.next <= |r.value.steps| && r.value.id == s.db.runs[i].of.sessionID
  {
    hide TaskOk, LinkOk, SnapshotOk, RecoveryOk, OwnerOk, AttemptOutput, Armed, Latest;
    assert RunOk(s, i);
    assert FileOk(s, s.db.runs[i].of.sessionID);
  }

  /** One pass of a server over an expired run, with nothing in between. */
  function TakeOver(s: System, i: nat, time: int, resetInterval: int): System
  {
    var r := |s.recoveries|;
    DoRecover(DoSaveRecovery(DoLoad(DoSight(s, i), r), r), r, time, resetInterval)
  }

  /** A run whose lease has expired can always be taken over: whatever its executor left
      behind and wherever it died, one pass of a server finalizes it, and leaves its task done
      or failed. With FailuresAreResumable, no crash strands a task. */
  lemma ExpiredRunsAreRecoverable(actions: seq<Action>, i: nat, time: int, resetInterval: int)
    requires i < |After(actions).db.runs| && Expired(After(actions).db.runs[i], After(actions).now)
    ensures var s := After(actions);
            var after := TakeOver(s, i, time, resetInterval).db;
            && i < |after.runs| && s.db.runs[i].of.sessionID < |s.files|
            && Reconcile(Source(s, i), i + 1, s.db.runs[i].of).Ok?
            && var c := Reconcile(Source(s, i), i + 1, s.db.runs[i].of).value;
            && var t := s.db.runs[i].of.taskID;
            && after.runs[i].status == TerminalStateOf(OutcomeOf(c.halt)).run
            && after.runs[i].checkpoint == Some(c)
            && after.HasTask(t) && after.TaskOf(t).status == TerminalStateOf(OutcomeOf(c.halt)).task
  {
    var s := After(actions);
    InvariantAlways(actions);
    RunningRunsReconcile(actions, i);
    hide Play;
    RunningTask(s, i);
    TakeOverWorks(s, i, time, resetInterval);
  }

  lemma RunningTask(s: System, i: nat)
    requires Inv(s) && i < |s.db.runs| && s.db.runs[i].status.RunRunning?
    ensures Shape(s) && s.db.HasTask(s.db.runs[i].of.taskID) && s.db.TaskOf(s.db.runs[i].of.taskID).status.InProgress?
  {
    hide LinkOk, FileOk, SnapshotOk, RecoveryOk, RowOk, OwnerOk, Latest;
    assert RunOk(s, i);
    assert TaskOk(s, s.db.runs[i].of.taskID);
  }

  lemma TakeOverWorks(s: System, i: nat, time: int, resetInterval: int)
    requires Shape(s) && i < |s.db.runs| && Expired(s.db.runs[i], s.now) && s.db.runs[i].of.sessionID < |s.files|
    requires s.db.HasTask(s.db.runs[i].of.taskID) && s.db.TaskOf(s.db.runs[i].of.taskID).status.InProgress?
    requires var r := Reconcile(Source(s, i), i + 1, s.db.runs[i].of);
             r.Ok? && r.value.next <= |r.value.steps| && r.value.id < |s.files|
    ensures var after := TakeOver(s, i, time, resetInterval).db;
            && i < |after.runs|
            && var c := Reconcile(Source(s, i), i + 1, s.db.runs[i].of).value;
            && var t := s.db.runs[i].of.taskID;
            && after.runs[i].status == TerminalStateOf(OutcomeOf(c.halt)).run
            && after.runs[i].checkpoint == Some(c)
            && after.HasTask(t) && after.TaskOf(t).status == TerminalStateOf(OutcomeOf(c.halt)).task
  {
    hide Reconcile, DoRecover, FinishAttempt;
    var r := |s.recoveries|;
    var run := s.db.runs[i];
    var c := Reconcile(Source(s, i), i + 1, run.of).value;
    var sighted := DoSight(s, i);
    assert sighted.recoveries[r] == Sighted(i + 1, run);
    var loaded := DoLoad(sighted, r);
    assert loaded.recoveries[r].Reconciled? && loaded.recoveries[r].session == c;
    var saved := DoSaveRecovery(loaded, r);
    assert saved.recoveries[r].Reconciled? && !saved.recoveries[r].unsaved && saved.db == s.db && saved.now == s.now;
    RecoverWorks(saved, r, i, c, time, resetInterval);
  }

  lemma RecoverWorks(s: System, r: nat, i: nat, c: SessionState, time: int, resetInterval: int)
    requires r < |s.recoveries| && s.recoveries[r].Reconciled? && !s.recoveries[r].unsaved
    requires i < |s.db.runs| == |s.trail| && Expired(s.db.runs[i], s.now) && c.next <= |c.steps|
    requires s.recoveries[r].id == i + 1 && s.recoveries[r].run == s.db.runs[i] && s.recoveries[r].session == c
    requires s.db.HasTask(s.db.runs[i].of.taskID) && s.db.TaskOf(s.db.runs[i].of.taskID).status.InProgress?
    ensures var after := DoRecover(s, r, time, resetInterval).db;
            && |after.runs| == |s.db.runs| && after.HasTask(s.db.runs[i].of.taskID)
            && after.runs[i].status == TerminalStateOf(OutcomeOf(c.halt)).run && after.runs[i].checkpoint == Some(c)
            && after.TaskOf(s.db.runs[i].of.taskID).status == TerminalStateOf(OutcomeOf(c.halt)).task
  {
    hide Summary, CompletionFor, AttemptOutput;
    CompletionOutcome(c, s.db.runs[i].of.startStep, time, resetInterval);
  }
}
