/** The invariant after each kind of action, and after every history. */
module Steps {
  import opened Base
  import opened Domain
  import opened Plans
  import opened Agent
  import opened Driving
  import opened Store
  import opened Runner
  import opened Protocol
  import opened Invariant
  import opened Preservation

  // ---- callers before their claim ----

  lemma ExecuteKeeps(s: System, t: nat, h: Word, count: nat, title: string, feedback: seq<string>,
      budget: nat, failAt: nat)
    requires Inv(s)
    ensures Inv(DoExecute(s, t, h, count, title, feedback, budget, failAt))
  {
    hide RunOk, LinkOk, TaskOk, RecoveryOk, PlannedSteps;
    var after := DoExecute(s, t, h, count, title, feedback, budget, failAt);
    if after != s {
      var plan := Plan(title, feedback, PlannedSteps(h, count, feedback), budget, failAt);
      PlansArePriced(h, count, feedback);
      StartIsReady(|s.plans|, plan);
      assert after.plans[|s.plans|] == plan;
      forall x | 0 <= x < |after.plans| ensures Priced(after.plans[x].steps) {
        assert x < |s.plans| ==> after.plans[x] == s.plans[x];
      }
      QuietStep(s, after);
    }
  }

  lemma ResumeKeeps(s: System, t: nat, kind: ResumeKind, expectedRunID: nat, time: int)
    requires Inv(s)
    ensures Inv(DoResume(s, t, kind, expectedRunID, time))
  {
    hide RunOk, LinkOk, TaskOk, RecoveryOk, FileOk, Granted, Ready;
    var after := DoResume(s, t, kind, expectedRunID, time);
    if after != s {
      var id := LatestTerminal(s.db.runs, t);
      assert id > 0;
      FinalizedRunIsResumable(s, id);
      var run := s.db.RunOf(id);
      var session := after.snapshots[|s.snapshots|].session;
      assert Granted(run.checkpoint.value, run.exit) == Ok(session);
      GrantedIsReady(run.checkpoint.value, run.exit, s.plans[run.of.sessionID]);
      assert SnapshotOk(after, |s.snapshots|);
      QuietStep(s, after);
    }
  }

  /** A finalized run always has a checkpoint of its own session, so a resume never falls
      back on the compatibility file. */
  lemma FinalizedRunIsResumable(s: System, id: nat)
    requires Inv(s) && s.db.HasRun(id) && !s.db.RunOf(id).status.RunRunning?
    ensures s.db.RunOf(id).of.sessionID < |s.plans| && s.db.RunOf(id).checkpoint.Some?
    ensures s.db.RunOf(id).checkpoint.value.id == s.db.RunOf(id).of.sessionID
    ensures Accounted(s.db.RunOf(id).checkpoint.value, s.plans[s.db.RunOf(id).of.sessionID])
  {
    hide LinkOk, TaskOk, FileOk, SnapshotOk, RecoveryOk, OwnerOk, Accounted;
    assert RunOk(s, id - 1);
  }

  lemma GrantedIsReady(c: SessionState, exit: ExitReason, plan: Plan)
    requires Accounted(c, plan) && Granted(c, exit).Ok?
    ensures Ready(Granted(c, exit).value, plan) && Granted(c, exit).value.id == c.id
  {
  }

  // ---- the owner ----

  lemma ClaimKeeps(s: System, k: nat, startedAt: int, lease: int, token: Token)
    requires Inv(s)
    ensures Inv(DoClaim(s, k, startedAt, lease, token))
  {
    hide RunOk, LinkOk, TaskOk, FileOk, SnapshotOk, RecoveryOk, Evolves, DoClaim;
    var t := DoClaim(s, k, startedAt, lease, token);
    if t != s {
      var p := ClaimEffect(s, k, startedAt, lease, token);
      ClaimEvolves(s, t, s.snapshots[k], p, token);
      ClaimRuns(s, t, k, p, token);
      ClaimLinks(s, t, k, p, token);
      ClaimTasks(s, t, s.snapshots[k], p, token);
      forall x | 0 <= x < |t.files| ensures FileOk(t, x) {
        FileEvolves(s, t, x);
      }
      forall m | 0 <= m < |t.snapshots| ensures SnapshotOk(t, m) {
        SnapshotEvolves(s, t, m);
      }
      forall r | 0 <= r < |t.recoveries| ensures RecoveryOk(t, r) {
        assert RecoveryOk(s, r);
        RecoveryRunExists(s, r);
        RecoveryEvolves(s, t, r);
      }
    }
  }

  /** The effect of an accepted claim. */
  predicate Claims(s: System, t: System, snap: Snapshot, p: StartParams, token: Token)
  {
    && p == ClaimParams(snap.taskID, snap.status, snap.previousRun, snap.session, p.startedAt, p.lease)
    && Claimable(s.db, p, AuthorizationOf(snap.kind))
    && Transition(snap.status, InProgress)
    && t == s.(db := s.db.(tasks := s.db.tasks[snap.taskID - 1 := Task(InProgress, NoContinuation)],
                           runs := s.db.runs + [NewRun(p, token)]),
               owners := s.owners + [Claimed(snap.session)],
               trail := s.trail + [Trail(Birth(snap.previousRun, snap.kind, snap.session.origin,
                   snap.session.erroredAt), None)])
  }

  lemma ClaimEffect(s: System, k: nat, startedAt: int, lease: int, token: Token) returns (p: StartParams)
    requires DoClaim(s, k, startedAt, lease, token) != s
    ensures k < |s.snapshots| && p.startedAt == startedAt
    ensures Claims(s, DoClaim(s, k, startedAt, lease, token), s.snapshots[k], p, token)
  {
    hide Claimable, Refusal;
    var snap := s.snapshots[k];
    p := ClaimParams(snap.taskID, snap.status, snap.previousRun, snap.session, startedAt, lease);
  }

  lemma ClaimEvolves(s: System, t: System, snap: Snapshot, p: StartParams, token: Token)
    requires Inv(s) && Claims(s, t, snap, p, token)
    ensures Shape(t) && PlansOk(t) && Evolves(s, t)
    ensures t.db.runs[..|s.db.runs|] == s.db.runs
  {
    hide RunOk, LinkOk, TaskOk, FileOk, SnapshotOk, RecoveryOk;
  }

  lemma ClaimRuns(s: System, t: System, k: nat, p: StartParams, token: Token)
    requires Inv(s) && k < |s.snapshots| && Claims(s, t, s.snapshots[k], p, token) && Shape(t)
    ensures forall i :: 0 <= i < |t.db.runs| ==> RunOk(t, i)
  {
    var n := |s.db.runs|;
    hide Inv, RunOk, Claims;
    ClaimAddsOne(s, t, s.snapshots[k], p, token);
    forall i | 0 <= i < n ensures RunOk(t, i) {
      OldRunKept(s, t, s.snapshots[k], p, token, i);
    }
    NewRunIsOk(s, t, k, p, token);
  }

  lemma ClaimAddsOne(s: System, t: System, snap: Snapshot, p: StartParams, token: Token)
    requires Claims(s, t, snap, p, token)
    ensures |t.db.runs| == |s.db.runs| + 1
  {
    hide Claimable;
  }

  lemma OldRunKept(s: System, t: System, snap: Snapshot, p: StartParams, token: Token, i: nat)
    requires Inv(s) && Claims(s, t, snap, p, token) && Shape(t) && i < |s.db.runs|
    ensures i < |t.db.runs| && RunOk(t, i)
  {
    hide LinkOk, TaskOk, FileOk, SnapshotOk, RecoveryOk, RowOk, OwnerOk, Latest;
    assert RunOk(s, i);
    LatestAppend(s.db.runs, t.db.runs[|s.db.runs|], s.db.runs[i].of.taskID);
    if s.db.runs[i].status.RunRunning? {
      ClaimedTaskIsIdle(s, snap, p, i);
    }
  }

  lemma NewRunIsOk(s: System, t: System, k: nat, p: StartParams, token: Token)
    requires Inv(s) && k < |s.snapshots| && Claims(s, t, s.snapshots[k], p, token) && Shape(t)
    ensures |s.db.runs| < |t.db.runs| && RunOk(t, |s.db.runs|)
  {
    hide LinkOk, TaskOk, FileOk, RecoveryOk, RunOk, RowOk, OwnerOk, Ready, Granted, Start, Latest;
    var n := |s.db.runs|;
    assert SnapshotOk(s, k);
    LatestAppend(s.db.runs, t.db.runs[n], s.snapshots[k].taskID);
    var c := s.snapshots[k].session;
    NewRowIsOk(t.db.runs[n], n + 1, t.trail[n], s.plans[c.id], c, p);
    NewRunOk(t, n);
  }

  lemma NewRunOk(t: System, i: nat)
    requires Shape(t) && i < |t.db.runs|
    requires t.db.runs[i].of.sessionID < |t.plans| && t.db.HasTask(t.db.runs[i].of.taskID)
    requires RowOk(t.db.runs[i], i + 1, t.trail[i], t.plans[t.db.runs[i].of.sessionID])
    requires OwnerOk(t.owners[i], t.db.runs[i], i + 1, t.trail[i].birth, t.plans[t.db.runs[i].of.sessionID])
    requires Latest(t.db.runs, t.db.runs[i].of.taskID) == i + 1
    ensures RunOk(t, i)
  {
  }

  /** A task that can be claimed has no running run. */
  lemma ClaimedTaskIsIdle(s: System, snap: Snapshot, p: StartParams, i: nat)
    requires Inv(s) && Claimable(s.db, p, AuthorizationOf(snap.kind)) && Transition(p.expectedStatus, InProgress)
    requires i < |s.db.runs| && s.db.runs[i].status.RunRunning?
    ensures s.db.runs[i].of.taskID != p.taskID
  {
    hide LinkOk, FileOk, RecoveryOk, SnapshotOk, RowOk, OwnerOk;
    assert RunOk(s, i);
    assert TaskOk(s, p.taskID);
  }

  lemma NewRowIsOk(row: Run, id: nat, trail: Trail, plan: Plan, c: SessionState, p: StartParams)
    requires Ready(c, plan) && trail.closing.None?
    requires p.sessionID == c.id && p.tokenBudget == c.allowance && p.startStep == c.next
        && row == NewRun(p, row.of.token)
    requires trail.birth.origin == c.origin && trail.birth.armed == c.erroredAt
    ensures RowOk(row, id, trail, plan) && OwnerOk(Claimed(c), row, id, trail.birth, plan)
  {
  }

  lemma ClaimLinks(s: System, t: System, k: nat, p: StartParams, token: Token)
    requires Inv(s) && k < |s.snapshots| && Claims(s, t, s.snapshots[k], p, token) && Shape(t) && Evolves(s, t)
    requires t.db.runs[..|s.db.runs|] == s.db.runs
    ensures forall i :: 0 <= i < |t.db.runs| ==> LinkOk(t, i)
  {
    hide FileOk, RecoveryOk, RunOk, TaskOk, Evolves, Ready, Granted, Start, FirstAttempt, Succeeds;
    var n := |s.db.runs|;
    forall i | 0 <= i < n ensures LinkOk(t, i) {
      assert LinkOk(s, i);
      LinkEvolves(s, t, i);
    }
    var snap := s.snapshots[k];
    assert SnapshotOk(s, k);
    if snap.status.Todo? {
      StartIsFirst(t.db.runs[n].of, t.trail[n].birth, snap.session, s.plans[snap.session.id]);
    } else {
      ClaimSucceeds(s, k, p, token);
    }
    assert LinkOk(t, n);
  }

  lemma StartIsFirst(of: Identity, birth: Birth, c: SessionState, plan: Plan)
    requires c == Start(c.id, plan) && of.startStep == c.next && of.tokenBudget == c.allowance
    requires birth.origin == c.origin && birth.armed == c.erroredAt && birth.kind.ManualResume?
    ensures FirstAttempt(of, birth, plan)
  {
  }

  /** What the claim's guard establishes about the run it succeeds. */
  lemma ClaimSucceeds(s: System, k: nat, p: StartParams, token: Token)
    requires Inv(s) && k < |s.snapshots| && s.snapshots[k].status.Failed?
    requires var snap := s.snapshots[k];
      && p == ClaimParams(snap.taskID, Failed, snap.previousRun, snap.session, p.startedAt, p.lease)
      && Claimable(s.db, p, AuthorizationOf(snap.kind))
    ensures var snap := s.snapshots[k];
      && s.db.HasRun(snap.previousRun) && snap.session.id < |s.plans|
      && Succeeds(NewRun(p, token).of, Birth(snap.previousRun, snap.kind, snap.session.origin, snap.session.erroredAt),
                  s.db.RunOf(snap.previousRun), s.trail[snap.previousRun - 1], s.plans[snap.session.id])
  {
    hide FileOk, RecoveryOk, LinkOk, RunOk, Accounted, HaltExplained;
    var snap := s.snapshots[k];
    assert SnapshotOk(s, k);
    assert TaskOk(s, snap.taskID);
    FinalizedRunIsResumable(s, snap.previousRun);
    AccountedBudget(s.db.RunOf(snap.previousRun).checkpoint.value, s.plans[snap.session.id]);
  }

  lemma AccountedBudget(c: SessionState, plan: Plan)
    requires Accounted(c, plan)
    ensures c.budget == plan.budget && 0 <= c.remaining
  {
  }

  lemma ClaimTasks(s: System, t: System, snap: Snapshot, p: StartParams, token: Token)
    requires Inv(s) && Claims(s, t, snap, p, token) && Shape(t)
    ensures forall u :: 1 <= u <= |t.db.tasks| ==> TaskOk(t, u)
  {
    hide Inv, TaskOk, Claims;
    forall u | 1 <= u <= |t.db.tasks| ensures TaskOk(t, u) {
      ClaimedTask(s, t, snap, p, token, u);
    }
  }

  lemma ClaimedTask(s: System, t: System, snap: Snapshot, p: StartParams, token: Token, u: nat)
    requires Inv(s) && Claims(s, t, snap, p, token) && Shape(t) && t.db.HasTask(u)
    ensures TaskOk(t, u)
  {
    hide FileOk, RecoveryOk, LinkOk, RunOk, SnapshotOk, Latest;
    LatestAppend(s.db.runs, t.db.runs[|s.db.runs|], u);
    assert s.db.HasTask(u);
    assert TaskOk(s, u);
  }

  lemma BindKeeps(s: System, i: nat)
    requires Inv(s)
    ensures Inv(DoBind(s, i))
  {
    hide LinkOk, TaskOk, FileOk, SnapshotOk, RecoveryOk, RowOk, OwnState, Ready, BindAttempt;
    var t := DoBind(s, i);
    if t != s {
      var row := s.db.runs[i];
      assert RunOk(s, i);
      hide RunOk;
      BoundIsOwn(s.owners[i].session, row, i + 1, s.trail[i].birth, s.plans[row.of.sessionID]);
      assert OwnerFits(t, i);
      QuietStep(s, t);
    }
  }

  lemma BoundIsOwn(c: SessionState, row: Run, id: nat, birth: Birth, plan: Plan)
    requires OwnerOk(Claimed(c), row, id, birth, plan)
    ensures OwnerOk(Bound(BindAttempt(c, id, row.of.token), true), row, id, birth, plan)
  {
    BindIsAccounted(c, plan, id, row.of.token);
  }

  lemma SaveKeeps(s: System, i: nat)
    requires Inv(s)
    ensures Inv(DoSave(s, i))
  {
    hide LinkOk, TaskOk, FileOk, SnapshotOk, RecoveryOk, OwnState, Accounted, AttemptLines;
    var t := DoSave(s, i);
    if t != s {
      var row := s.db.runs[i];
      var c := s.owners[i].session;
      assert RunOk(s, i);
      OwnStateNames(c, i + 1, row.of, s.trail[i].birth, s.plans[row.of.sessionID]);
      assert FileOk(t, c.id) by {
        OwnFileIsOk(t, i, c);
      }
      hide RunOk;
      assert OwnerFits(t, i);
      QuietStep(s, t);
    }
  }

  lemma OwnStateNames(c: SessionState, id: nat, of: Identity, birth: Birth, plan: Plan)
    requires Credible(c, id, of, birth, plan)
    ensures Names(c, id, of) && Accounted(c, plan)
  {
  }

  /** A session bound to run i may stand in the compatibility file. */
  lemma OwnFileIsOk(t: System, i: nat, c: SessionState)
    requires Shape(t) && i < |t.db.runs| && t.db.runs[i].of.sessionID < |t.plans|
    requires Credible(c, i + 1, t.db.runs[i].of, t.trail[i].birth, t.plans[t.db.runs[i].of.sessionID])
    requires c.id < |t.files| && t.files[c.id] == c
    requires t.db.runs[i].checkpoint.None? ==> Untouched(c)
    ensures FileOk(t, c.id)
  {
    OwnStateNames(c, i + 1, t.db.runs[i].of, t.trail[i].birth, t.plans[t.db.runs[i].of.sessionID]);
    hide Accounted;
  }

  lemma CrashKeeps(s: System, i: nat)
    requires Inv(s)
    ensures Inv(Next(s, Crash(i)))
  {
    hide LinkOk, TaskOk, FileOk, SnapshotOk, RecoveryOk;
    var t := Next(s, Crash(i));
    if t != s {
      assert RunOk(s, i);
      hide RunOk;
      assert OwnerFits(t, i);
      QuietStep(s, t);
    }
  }

  // ---- the owner's fenced writes ----

  /** A publication of a state of the run's own, accepted or not. */
  lemma ProgressKeeps(s: System, t: System, i: nat, c: SessionState, owner: Owner)
    requires Inv(s) && i < |s.db.runs| && s.db.runs[i].of.sessionID < |s.plans|
    requires OwnState(c, i + 1, s.db.runs[i].of, s.trail[i].birth, s.plans[s.db.runs[i].of.sessionID])
    requires owner.Live? && owner.session == c && owner.lines == AttemptLines(c)
    requires var (db, ok) := UpdateProgress(s.db, i + 1, s.db.runs[i].of.token, AttemptOutput(c), c.used, c, s.now);
             t == s.(db := db, owners := s.owners[i := if ok then owner else Gone])
    ensures Inv(t)
  {
    hide LinkOk, TaskOk, FileOk, SnapshotOk, RecoveryOk, OwnState, AttemptLines, AttemptOutput;
    assert RunOk(s, i);
    var task := s.db.runs[i].of.taskID;
    var row := t.db.runs[i];
    hide RunOk;
    if t.db == s.db && t.owners[i].Gone? {
      assert OwnerFits(t, i);
      QuietStep(s, t);
    } else {
      assert RowOk(row, i + 1, t.trail[i], t.plans[row.of.sessionID]);
      assert OwnerFits(t, i);
      assert TaskOk(s, task);
      RunningTaskKept(s, t, i);
      RowStep(s, t, i);
    }
  }

  /** Rewriting a running row to a running row leaves its task in order. */
  lemma RunningTaskKept(s: System, t: System, i: nat)
    requires Inv(s) && i < |s.db.runs| && Rewrites(s, t, i) && s.db.tasks == t.db.tasks
    requires t.db.runs[i].status.RunRunning? && t.trail == s.trail
    ensures t.db.HasTask(t.db.runs[i].of.taskID) && TaskOk(t, t.db.runs[i].of.taskID)
  {
    hide LinkOk, FileOk, SnapshotOk, RecoveryOk, RowOk, OwnerOk;
    assert RunOk(s, i);
    var task := s.db.runs[i].of.taskID;
    assert TaskOk(s, task);
    LatestAgrees(s.db.runs, t.db.runs, task);
    assert Latest(t.db.runs, task) == i + 1;
    assert s.db.TaskOf(task).status.InProgress?;
    assert t.db.TaskOf(task) == s.db.TaskOf(task);
  }

  lemma PublishBindingKeeps(s: System, i: nat)
    requires Inv(s)
    ensures Inv(DoPublishBinding(s, i))
  {
    hide LinkOk, TaskOk, FileOk, SnapshotOk, RecoveryOk, RowOk, OwnState, UpdateProgress;
    var t := DoPublishBinding(s, i);
    if t != s {
      assert RunOk(s, i);
      hide RunOk;
      var c := s.owners[i].session;
      assert AttemptLines(c) == [];
      ProgressKeeps(s, t, i, c, Live(c, [], false));
    }
  }

  lemma CommitKeeps(s: System, i: nat, cancelled: bool, time: int)
    requires Inv(s)
    ensures Inv(DoCommit(s, i, cancelled, time))
  {
    hide LinkOk, TaskOk, FileOk, SnapshotOk, RecoveryOk, RowOk, OwnState, UpdateProgress, Advance, AttemptLines;
    var t := DoCommit(s, i, cancelled, time);
    if t != s {
      assert RunOk(s, i);
      hide RunOk;
      var row := s.db.runs[i];
      var c := s.owners[i].session;
      var move := Advance(c, cancelled, time);
      CommittedIsOwn(c, i + 1, row.of, s.trail[i].birth, s.plans[row.of.sessionID], cancelled, time);
      var lines := Extend(s.owners[i].lines, move.line);
      ProgressKeeps(s, t, i, move.state, Live(move.state, lines, true));
    }
  }

  lemma CommittedIsOwn(c: SessionState, id: nat, of: Identity, birth: Birth, plan: Plan, cancelled: bool, time: int)
    requires OwnState(c, id, of, birth, plan) && !c.halt.Terminal()
    ensures var move := Advance(c, cancelled, time);
            && OwnState(move.state, id, of, birth, plan)
            && AttemptLines(move.state) == Extend(AttemptLines(c), move.line)
  {
    hide Accounted, AttemptLines, StepOutput, SummaryLine, ErrorText;
    AdvanceAddsItsLine(c, plan, cancelled, time);
    AdvanceStaysArmed(c, id, of, birth, plan, cancelled, time);
  }

  lemma AdvanceStaysArmed(c: SessionState, id: nat, of: Identity, birth: Birth, plan: Plan, cancelled: bool, time: int)
    requires OwnState(c, id, of, birth, plan) && !c.halt.Terminal()
    ensures var after := Advance(c, cancelled, time).state;
            && Names(after, id, of) && after.start == of.startStep && after.origin == birth.origin
            && Armed(after, birth) && !after.halt.HaltUnset?
  {
    hide Accounted, StepOutput, SummaryLine, ErrorText;
  }

  lemma RenewKeeps(s: System, i: nat, duration: int)
    requires Inv(s)
    ensures Inv(DoRenew(s, i, duration))
  {
    hide LinkOk, TaskOk, FileOk, SnapshotOk, RecoveryOk, OwnState, Ready, AttemptLines, Credible, AttemptOutput;
    var t := DoRenew(s, i, duration);
    if t != s {
      assert RunOk(s, i);
      hide RunOk;
      assert OwnerFits(t, i);
      RunningTaskKept(s, t, i);
      RowStep(s, t, i);
    }
  }

  // ---- finalizing ----

  /** An accepted finalization with a state the run can credibly have. */
  lemma FinalizeKeeps(s: System, t: System, i: nat, p: FinishParams, authorization: FinishAuthorization,
      closing: Closing, owner: Owner)
    requires Inv(s) && i < |s.db.runs| && s.db.runs[i].of.sessionID < |s.plans| && p.runID == i + 1
    requires FinishAttempt(s.db, p, authorization, s.now).1.None?
    requires t == s.(db := FinishAttempt(s.db, p, authorization, s.now).0,
                     owners := s.owners[i := owner],
                     trail := s.trail[i := s.trail[i].(closing := Some(closing))])
    requires owner == s.owners[i] || owner == Gone
    requires p.completion == CompletionFor(p.checkpoint, s.db.runs[i].of.startStep, p.finishedAt, closing.resetInterval)
    requires closing.continuation == p.completion.continuation
    requires Credible(p.checkpoint, i + 1, s.db.runs[i].of, s.trail[i].birth, s.plans[s.db.runs[i].of.sessionID])
    requires p.output == AttemptOutput(p.checkpoint) && p.tokensUsed == p.checkpoint.used
    requires !p.completion.outcome.AttemptInterrupted? ==>
               p.error == if p.completion.outcome.AttemptAgentError? then p.checkpoint.errorMessage else ""
    requires match closing.file
             case None =>
                 OwnState(p.checkpoint, i + 1, s.db.runs[i].of, s.trail[i].birth, s.plans[s.db.runs[i].of.sessionID])
             case Some(file) => Reconcile(file, i + 1, s.db.runs[i].of) == Ok(p.checkpoint)
    ensures Inv(t)
  {
    hide LinkOk, TaskOk, FileOk, SnapshotOk, RecoveryOk, OwnState;
    hide Credible, AttemptOutput, AttemptLines, CompletionFor, Ready;
    assert RunOk(s, i);
    CompletionOutcome(p.checkpoint, s.db.runs[i].of.startStep, p.finishedAt, closing.resetInterval);
    var row := t.db.runs[i];
    assert Rewrites(s, t, i);
    assert RowOk(row, i + 1, t.trail[i], t.plans[row.of.sessionID]);
    assert OwnerFits(t, i);
    FinalizedTask(s, t, i, p, closing);
    hide RunOk, OwnerFits, RowOk, FinishAttempt;
    RowStep(s, t, i);
  }

  lemma CompletionOutcome(c: SessionState, startStep: nat, finishedAt: int, resetInterval: int)
    ensures var completion := CompletionFor(c, startStep, finishedAt, resetInterval);
            && completion.outcome == OutcomeOf(c.halt)
            && (completion.outcome.AttemptCompleted? || completion.outcome.AttemptAgentError? ==>
                  completion.continuation.NoContinuation?)
  {
  }

  lemma FinalizedTask(s: System, t: System, i: nat, p: FinishParams, closing: Closing)
    requires Inv(s) && i < |s.db.runs| && Rewrites(s, t, i)
    requires t.db.HasTask(p.taskID) && p.taskID == s.db.runs[i].of.taskID
    requires t.db.runs[i] == FinishedRun(s.db.runs[i], p)
    requires t.db.TaskOf(p.taskID) == Task(TerminalStateOf(p.completion.outcome).task, p.completion.continuation)
    requires t.trail[i].closing == Some(closing) && closing.continuation == p.completion.continuation
    requires p.completion.outcome.AttemptCompleted? ==> p.completion.continuation.NoContinuation?
    ensures TaskOk(t, p.taskID)
  {
    hide LinkOk, FileOk, SnapshotOk, RecoveryOk, RowOk, OwnerOk, TaskOk;
    assert RunOk(s, i);
    LatestAgrees(s.db.runs, t.db.runs, p.taskID);
    assert Latest(t.db.runs, p.taskID) == i + 1;
    TaskFinished(t, p.taskID, i, p);
  }

  lemma TaskFinished(t: System, task: nat, i: nat, p: FinishParams)
    requires Shape(t) && t.db.HasTask(task) && Latest(t.db.runs, task) == i + 1
    requires t.db.TaskOf(task) == Task(TerminalStateOf(p.completion.outcome).task, p.completion.continuation)
    requires t.db.runs[i].exit == TerminalStateOf(p.completion.outcome).exit
    requires t.db.runs[i].status == TerminalStateOf(p.completion.outcome).run
    requires t.trail[i].closing.Some? && t.trail[i].closing.value.continuation == p.completion.continuation
    requires p.completion.outcome.AttemptCompleted? ==> p.completion.continuation.NoContinuation?
    ensures TaskOk(t, task)
  {
  }

  lemma FinishKeeps(s: System, i: nat, time: int, resetInterval: int, text: string)
    requires Inv(s)
    ensures Inv(DoFinish(s, i, time, resetInterval, text))
  {
    hide LinkOk, TaskOk, FileOk, SnapshotOk, RecoveryOk, RowOk;
    hide OwnState, AttemptLines, CompletionFor, FinishAttempt, Summary;
    var t := DoFinish(s, i, time, resetInterval, text);
    if t != s {
      assert RunOk(s, i);
      hide RunOk;
      var p := FinishCall(s, i, time, resetInterval, text);
      var row := s.db.runs[i];
      OwnStateStart(p.checkpoint, i + 1, row.of, s.trail[i].birth, s.plans[row.of.sessionID]);
      FinishAttemptOrNothing(s.db, p, ByOwner, s.now);
      CompletionOutcome(p.checkpoint, row.of.startStep, time, resetInterval);
      if FinishAttempt(s.db, p, ByOwner, s.now).1.None? {
        FinalizeKeeps(s, t, i, p, ByOwner, Closing(resetInterval, p.completion.continuation, None), Gone);
      } else {
        assert OwnerFits(t, i);
        QuietStep(s, t);
      }
    }
  }

  lemma OwnStateStart(c: SessionState, id: nat, of: Identity, birth: Birth, plan: Plan)
    requires OwnState(c, id, of, birth, plan)
    ensures c.start == of.startStep && Credible(c, id, of, birth, plan)
  {
  }

  lemma FinishAttemptOrNothing(db: Db, p: FinishParams, authorization: FinishAuthorization, now: int)
    ensures FinishAttempt(db, p, authorization, now).1.Some? ==> FinishAttempt(db, p, authorization, now).0 == db
    ensures FinishAttempt(db, p, authorization, now).1.None? ==> Finishable(db, p, authorization, now)
  {
  }

  // ---- recovery ----

  lemma SightKeeps(s: System, i: nat)
    requires Inv(s)
    ensures Inv(DoSight(s, i))
  {
    hide LinkOk, TaskOk, FileOk, SnapshotOk, OwnerOk, OwnState, AttemptOutput, Credible;
    var t := DoSight(s, i);
    if t != s {
      assert RunOk(s, i);
      hide RunOk;
      assert RecoveryOk(t, |s.recoveries|);
      QuietStep(s, t);
    }
  }

  lemma LoadKeeps(s: System, r: nat)
    requires Inv(s)
    ensures Inv(DoLoad(s, r))
  {
    hide LinkOk, TaskOk, FileOk, SnapshotOk, RunOk, OwnState, Credible, Reconcile;
    var t := DoLoad(s, r);
    if t != s {
      assert RecoveryOk(s, r);
      var id, run := s.recoveries[r].id, s.recoveries[r].run;
      var x := run.of.sessionID;
      var birth := s.trail[id - 1].birth;
      if run.checkpoint.Some? {
        OwnReconciles(run.checkpoint.value, id, run.of, birth, s.plans[x]);
      } else {
        assert FileOk(s, x);
        LoadedIsCredible(s, x, id);
      }
      assert RecoveryOk(t, r);
      QuietStep(s, t);
    }
  }

  /** A checkpointed run is recovered from its own checkpoint as it stands. */
  lemma OwnReconciles(c: SessionState, id: nat, of: Identity, birth: Birth, plan: Plan)
    requires OwnState(c, id, of, birth, plan)
    ensures Reconcile(c, id, of) == Ok(c) && Credible(c, id, of, birth, plan)
  {
  }

  /** Whatever the compatibility file holds, what reconciliation makes of it is credible. */
  lemma LoadedIsCredible(s: System, x: nat, id: nat)
    requires Shape(s) && x < |s.files| && s.db.HasRun(id) && s.db.RunOf(id).of.sessionID == x
    requires FileOk(s, x) && Reconcile(s.files[x], id, s.db.RunOf(id).of).Ok?
    ensures Credible(Reconcile(s.files[x], id, s.db.RunOf(id).of).value, id, s.db.RunOf(id).of,
        s.trail[id - 1].birth, s.plans[x])
    ensures s.db.RunOf(id).checkpoint.None? ==> Untouched(Reconcile(s.files[x], id, s.db.RunOf(id).of).value)
  {
    hide OwnState;
    var f, of := s.files[x], s.db.RunOf(id).of;
    if f.runID != id {
      AdoptedIsCredible(f, id, of, s.plans[x]);
    }
  }

  lemma AdoptedIsCredible(f: SessionState, id: nat, of: Identity, plan: Plan)
    requires Accounted(f, plan) && f.id == of.sessionID && f.runID < id && Reconcile(f, id, of).Ok?
    ensures AdoptedState(Reconcile(f, id, of).value, id, of, plan)
  {
    var begun := BeginAttempt(f, of.tokenBudget, WindowUnknown).value;
    BindIsAccounted(begun, plan, id, of.token);
  }

  lemma SaveRecoveryKeeps(s: System, r: nat)
    requires Inv(s)
    ensures Inv(DoSaveRecovery(s, r))
  {
    hide LinkOk, TaskOk, FileOk, SnapshotOk, RunOk, OwnState, Credible, Accounted, Reconcile;
    var t := DoSaveRecovery(s, r);
    if t != s {
      assert RecoveryOk(s, r);
      assert RecoveryOk(t, r);
      var id := s.recoveries[r].id;
      var c := s.recoveries[r].session;
      OwnStateNames(c, id, s.db.RunOf(id).of, s.trail[id - 1].birth, s.plans[s.db.RunOf(id).of.sessionID]);
      OwnFileIsOk(t, id - 1, c);
      QuietStep(s, t);
    }
  }

  lemma RecoverKeeps(s: System, r: nat, time: int, resetInterval: int)
    requires Inv(s)
    ensures Inv(DoRecover(s, r, time, resetInterval))
  {
    hide LinkOk, TaskOk, FileOk, SnapshotOk, RunOk, OwnState;
    hide Credible, Reconcile, CompletionFor, FinishAttempt, Summary, AttemptLines;
    var t := DoRecover(s, r, time, resetInterval);
    if t != s {
      assert RecoveryOk(s, r);
      var rec := s.recoveries[r];
      var p := RecoverCall(s, r, time, resetInterval);
      var i := rec.id - 1;
      if rec.file.None? {
        OwnStateStart(rec.session, rec.id, rec.run.of, s.trail[i].birth, s.plans[rec.run.of.sessionID]);
      }
      CompletionOutcome(rec.session, rec.run.of.startStep, time, resetInterval);
      FinalizeKeeps(s, t, i, p, ByRecovery, Closing(resetInterval, p.completion.continuation, rec.file), s.owners[i]);
    }
  }

  // ---- the rest ----

  lemma AddTaskKeeps(s: System)
    requires Inv(s)
    ensures Inv(Next(s, AddTask))
  {
    hide OwnState, RowOk, OwnerOk, Credible, Accounted, Ready, Granted, Reconcile, Succeeds, FirstAttempt, Start;
    var t := Next(s, AddTask);
    forall i | 0 <= i < |t.db.runs| ensures RunOk(t, i) && LinkOk(t, i) {
      assert RunOk(s, i);
      assert LinkOk(s, i);
    }
    forall u | 1 <= u <= |t.db.tasks| ensures TaskOk(t, u) {
      if u <= |s.db.tasks| {
        assert TaskOk(s, u);
      } else if Latest(s.db.runs, u) > 0 {
        assert RunOk(s, Latest(s.db.runs, u) - 1);
      }
    }
    forall x | 0 <= x < |t.files| ensures FileOk(t, x) {
      assert FileOk(s, x);
    }
    forall k | 0 <= k < |t.snapshots| ensures SnapshotOk(t, k) {
      assert SnapshotOk(s, k);
    }
    forall r | 0 <= r < |t.recoveries| ensures RecoveryOk(t, r) {
      assert RecoveryOk(s, r);
    }
  }

  lemma WriteLateKeeps(s: System, k: nat)
    requires Inv(s)
    ensures Inv(DoWriteLate(s, k))
  {
    hide OwnState, RowOk, OwnerOk, Credible, Accounted, Ready, Granted, Reconcile, Succeeds, FirstAttempt, Start;
    var t := DoWriteLate(s, k);
    forall i | 0 <= i < |t.db.runs| ensures RunOk(t, i) && LinkOk(t, i) {
      assert RunOk(s, i);
      assert LinkOk(s, i);
    }
    forall u | 1 <= u <= |t.db.tasks| ensures TaskOk(t, u) {
      assert TaskOk(s, u);
    }
    forall x | 0 <= x < |t.files| ensures FileOk(t, x) {
      assert FileOk(s, x);
    }
    forall m | 0 <= m < |t.snapshots| ensures SnapshotOk(t, m) {
      assert SnapshotOk(s, m);
    }
    forall r | 0 <= r < |t.recoveries| ensures RecoveryOk(t, r) {
      assert RecoveryOk(s, r);
    }
  }

  lemma SetClockKeeps(s: System, time: int)
    requires Inv(s)
    ensures Inv(Next(s, SetClock(time)))
  {
    hide LinkOk, TaskOk, FileOk, SnapshotOk, RunOk, Evolves;
    var t := Next(s, SetClock(time));
    TablesKept(s, t);
    forall x | 0 <= x < |t.files| ensures FileOk(t, x) {
      FileEvolves(s, t, x);
    }
    forall k | 0 <= k < |t.snapshots| ensures SnapshotOk(t, k) {
      SnapshotEvolves(s, t, k);
    }
    forall r | 0 <= r < |t.recoveries| ensures RecoveryOk(t, r) {
      assert RecoveryOk(s, r);
      RecoveryEvolves(s, t, r);
    }
  }

  lemma SeeUnscheduledKeeps(s: System, t: nat, resetInterval: int)
    requires Inv(s)
    ensures Inv(DoSeeUnscheduled(s, t, resetInterval))
  {
    hide LinkOk, TaskOk, FileOk, SnapshotOk, RunOk, RecoveryOk;
    QuietStep(s, DoSeeUnscheduled(s, t, resetInterval));
  }

  lemma NextKeepsInvariant(s: System, a: Action)
    requires Inv(s)
    ensures Inv(Next(s, a))
  {
    hide Inv;
    match a {
      case AddTask => AddTaskKeeps(s);
      case SetClock(time) => SetClockKeeps(s, time);
      case Execute(t, h, count, title, feedback, budget, failAt) =>
          ExecuteKeeps(s, t, h, count, title, feedback, budget, failAt);
      case Resume(t, kind, expected, time) => ResumeKeeps(s, t, kind, expected, time);
      case Claim(k, startedAt, lease, token) => ClaimKeeps(s, k, startedAt, lease, token);
      case Bind(i) => BindKeeps(s, i);
      case Save(i) => SaveKeeps(s, i);
      case PublishBinding(i) => PublishBindingKeeps(s, i);
      case Renew(i, duration) => RenewKeeps(s, i, duration);
      case Commit(i, cancelled, time) => CommitKeeps(s, i, cancelled, time);
      case Finish(i, time, resetInterval, text) => FinishKeeps(s, i, time, resetInterval, text);
      case Crash(i) => CrashKeeps(s, i);
      case Sight(i) => SightKeeps(s, i);
      case Load(r) => LoadKeeps(s, r);
      case SaveRecovery(r) => SaveRecoveryKeeps(s, r);
      case Recover(r, time, resetInterval) => RecoverKeeps(s, r, time, resetInterval);
      case SeeUnscheduled(t, resetInterval) => SeeUnscheduledKeeps(s, t, resetInterval);
      case WriteLate(k) => WriteLateKeeps(s, k);
    }
  }

  /** The invariant holds after every history. */
  lemma {:induction false} InvariantAlways(actions: seq<Action>)
    ensures Inv(Play(INITIAL, actions))
  {
    if |actions| > 0 {
      InvariantAlways(actions[..|actions| - 1]);
      NextKeepsInvariant(Play(INITIAL, actions[..|actions| - 1]), actions[|actions| - 1]);
    }
  }
}
