/** What a recovery may lose: a server reads an expired row, and finalizes the run at any
    later time with what it read. */
module Recoveries {
  import opened Base
  import opened Domain
  import opened Plans
  import opened Agent
  import opened Driving
  import opened Store
  import opened Runner
  import opened Protocol
  import opened Invariant
  import opened Steps
  import opened Fencing

  lemma {:induction false} InvariantStays(s: System, later: seq<Action>)
    requires Inv(s)
    ensures Inv(Play(s, later))
  {
    hide Inv, Next;
    if |later| > 0 {
      InvariantStays(s, later[..|later| - 1]);
      NextKeepsInvariant(Play(s, later[..|later| - 1]), later[|later| - 1]);
    }
  }

  // ---- what the server holds ----

  /** Recovery r goes by this row. */
  predicate WentBy(s: System, r: nat, id: nat, run: Run)
  {
    r < |s.recoveries| && s.recoveries[r].id == id && s.recoveries[r].run == run
  }

  lemma StepKeepsReading(s: System, a: Action, r: nat, id: nat, run: Run)
    requires WentBy(s, r, id, run)
    ensures WentBy(Next(s, a), r, id, run)
  {
    hide Advance, Terminalize, AttemptOutput, PlannedSteps, Start, BindAttempt, LateDecision, FinishCall, RecoverCall;
    hide StartAttempt, FinishAttempt, Reconcile, PrepareResume, ResumeCandidate, Unscheduled, UpdateProgress;
  }

  lemma {:induction false} ReadingStays(s: System, later: seq<Action>, r: nat, id: nat, run: Run)
    requires WentBy(s, r, id, run)
    ensures WentBy(Play(s, later), r, id, run)
  {
    hide Next, WentBy;
    if |later| > 0 {
      ReadingStays(s, later[..|later| - 1], r, id, run);
      StepKeepsReading(Play(s, later[..|later| - 1]), later[|later| - 1], r, id, run);
    }
  }

  // ---- an expired row ----

  /** For as long as run i + 1 is running its row is this one. */
  predicate Frozen(runs: seq<Run>, i: nat, row: Run)
  {
    i < |runs| && (runs[i].status.RunRunning? ==> runs[i] == row)
  }

  lemma ClaimKeepsFrozen(db: Db, p: StartParams, authorization: StartAuthorization, token: Token, i: nat, row: Run)
    requires Frozen(db.runs, i, row)
    ensures Frozen(StartAttempt(db, p, authorization, token).0.runs, i, row)
  {
    hide Claimable, Refusal;
  }

  /** An owner's write needs an unexpired lease. */
  lemma OwnerKeepsFrozen(
    db: Db, id: nat, token: Token, output: string, used: int, c: SessionState, duration: int,
    now: int, i: nat, row: Run)
    requires Frozen(db.runs, i, row) && row.leaseExpiresAt <= now
    ensures Frozen(UpdateProgress(db, id, token, output, used, c, now).0.runs, i, row)
    ensures Frozen(RenewLease(db, id, token, duration, now).0.runs, i, row)
  {
  }

  lemma FinishKeepsFrozen(db: Db, p: FinishParams, authorization: FinishAuthorization, now: int, i: nat, row: Run)
    requires Frozen(db.runs, i, row)
    ensures Frozen(FinishAttempt(db, p, authorization, now).0.runs, i, row)
  {
  }

  lemma StepKeepsFrozen(s: System, a: Action, i: nat, row: Run)
    requires Frozen(s.db.runs, i, row) && row.leaseExpiresAt <= s.now
    ensures Frozen(Next(s, a).db.runs, i, row)
  {
    hide StartAttempt, UpdateProgress, RenewLease, FinishAttempt, Frozen;
    hide Advance, OwnerParams, RecoveryParams, Reconcile, PlannedSteps, Start, BindAttempt, ClaimParams;
    hide ResumeCandidate, PrepareResume, Unscheduled;
    match a {
      case Claim(k, startedAt, lease, token) =>
        if k < |s.snapshots| {
          var snap := s.snapshots[k];
          ClaimKeepsFrozen(s.db,
              ClaimParams(snap.taskID, snap.status, snap.previousRun, snap.session, startedAt, lease),
                           AuthorizationOf(snap.kind), token, i, row);
        }
      case PublishBinding(j) =>
        if j < |s.owners| && j < |s.db.runs| && s.owners[j].Bound? {
          var c := s.owners[j].session;
          OwnerKeepsFrozen(s.db, j + 1, s.db.runs[j].of.token, "", c.used, c, 0, s.now, i, row);
        }
      case Renew(j, duration) =>
        if j < |s.owners| && j < |s.db.runs| && !s.owners[j].Gone? {
          OwnerKeepsFrozen(s.db, j + 1, s.db.runs[j].of.token, "", 0, s.owners[j].session, duration, s.now, i, row);
        }
      case Commit(j, cancelled, time) =>
        if MayCommit(s, j) {
          var move := Advance(s.owners[j].session, cancelled, time);
          OwnerKeepsFrozen(s.db, j + 1, s.db.runs[j].of.token, Join(Extend(s.owners[j].lines, move.line), "\n"),
                           move.state.used, move.state, 0, s.now, i, row);
        }
      case Finish(j, time, resetInterval, text) =>
        if j < |s.owners| && j < |s.db.runs| && s.owners[j].Live? {
          FinishKeepsFrozen(s.db, FinishCall(s, j, time, resetInterval, text), ByOwner, s.now, i, row);
        }
      case Recover(r, time, resetInterval) =>
        if MayRecover(s, r) {
          FinishKeepsFrozen(s.db, RecoverCall(s, r, time, resetInterval), ByRecovery, s.now, i, row);
        }
      case _ =>
    }
  }

  /** From state s on the clock never shows a time before this one. */
  predicate NeverBefore(s: System, later: seq<Action>, time: int)
  {
    forall n :: 0 <= n <= |later| ==> time <= Play(s, later[..n]).now
  }

  lemma {:induction false} FrozenStays(s: System, later: seq<Action>, i: nat, row: Run)
    requires Frozen(s.db.runs, i, row) && NeverBefore(s, later, row.leaseExpiresAt)
    ensures Frozen(Play(s, later).db.runs, i, row)
  {
    hide Next, Frozen;
    if |later| > 0 {
      var n := |later| - 1;
      forall m | 0 <= m <= n ensures later[..n][..m] == later[..m] {
      }
      assert row.leaseExpiresAt <= Play(s, later[..n]).now;
      FrozenStays(s, later[..n], i, row);
      StepKeepsFrozen(Play(s, later[..n]), later[n], i, row);
    }
  }

  // ---- a recovery that succeeds ----

  /** The finalized row keeps all the store had accepted from the run. */
  predicate KeepsAccepted(before: Run, closed: Run)
  {
    && closed.output == before.output && closed.tokensUsed == before.tokensUsed
    && (before.checkpoint.Some? ==> closed.checkpoint == before.checkpoint)
  }

  lemma RecoveryNames(s: System, r: nat, time: int, resetInterval: int)
    requires MayRecover(s, r)
    ensures var p := RecoverCall(s, r, time, resetInterval);
            && p.runID == s.recoveries[r].id && p.checkpoint == s.recoveries[r].session
            && p.output == AttemptOutput(s.recoveries[r].session) && p.tokensUsed == s.recoveries[r].session.used
            && p.completion.outcome == OutcomeOf(s.recoveries[r].session.halt)
  {
    hide Summary, CompletionFor, AttemptOutput;
    CompletionOutcome(s.recoveries[r].session, s.recoveries[r].run.of.startStep, time, resetInterval);
  }

  /** A recovery that succeeds finds its run running and stores the session it reconciled. */
  lemma RecoveryStores(s: System, r: nat, time: int, resetInterval: int)
    requires |s.trail| == |s.db.runs| && DoRecover(s, r, time, resetInterval) != s
    ensures var after := DoRecover(s, r, time, resetInterval);
            && r < |s.recoveries| && s.recoveries[r].Reconciled? && s.db.HasRun(s.recoveries[r].id)
            && after.db.HasRun(s.recoveries[r].id) && s.db.RunOf(s.recoveries[r].id).status.RunRunning?
            && var closed, c := after.db.RunOf(s.recoveries[r].id), s.recoveries[r].session;
            && c.next <= |c.steps| && !closed.status.RunRunning?
            && closed.checkpoint == Some(c) && closed.output == AttemptOutput(c) && closed.tokensUsed == c.used
  {
    hide RecoverCall, AttemptOutput;
    RecoveryNames(s, r, time, resetInterval);
    FinishAttemptOrNothing(s.db, RecoverCall(s, r, time, resetInterval), ByRecovery, s.now);
  }

  lemma UntouchedIsSilent(c: SessionState, id: nat, of: Identity, birth: Birth, plan: Plan)
    requires Credible(c, id, of, birth, plan) && Untouched(c)
    ensures AttemptOutput(c) == "" && c.used == 0
  {
  }

  /** What the row holds is what its checkpoint, if it has one, says it holds. */
  lemma RowAgrees(row: Run, id: nat, trail: Trail, plan: Plan)
    requires RowOk(row, id, trail, plan) && row.status.RunRunning?
    ensures match row.checkpoint
            case None => row.output == "" && row.tokensUsed == 0
            case Some(c) => c.next <= |c.steps| && row.output == AttemptOutput(c) && row.tokensUsed == c.used
                            && OwnState(c, id, row.of, trail.birth, plan)
  {
    hide AttemptOutput, AdoptedState;
  }

  /** The windows an executor's own session may come from. */
  lemma OriginIsKnown(s: System, i: nat)
    requires Inv(s) && i < |s.db.runs|
    ensures !s.trail[i].birth.origin.WindowUnknown?
  {
    hide RunOk, TaskOk, FileOk, SnapshotOk, RecoveryOk;
    assert LinkOk(s, i);
  }

  /** The file the server loaded holds the very state the run's executor last published. */
  predicate FileIsCurrent(rec: Recovery, row: Run)
  {
    rec.Reconciled? && rec.run.checkpoint.None? && row.checkpoint.Some? && rec.file == row.checkpoint
  }

  /** One successful recovery keeps everything accepted exactly if the row's checkpoint is
      the one the server read, or the file it loaded instead is current. */
  lemma RecoverKeepsAccepted(s: System, r: nat, time: int, resetInterval: int)
    requires Inv(s) && DoRecover(s, r, time, resetInterval) != s
    ensures var after := DoRecover(s, r, time, resetInterval);
            && r < |s.recoveries| && s.db.HasRun(s.recoveries[r].id) && after.db.HasRun(s.recoveries[r].id)
            && var row := s.db.RunOf(s.recoveries[r].id);
            && (KeepsAccepted(row, after.db.RunOf(s.recoveries[r].id)) <==>
                  row.checkpoint == s.recoveries[r].run.checkpoint || FileIsCurrent(s.recoveries[r], row))
  {
    hide LinkOk, TaskOk, FileOk, SnapshotOk, OwnerOk, RowOk;
    hide Credible, OwnState, AttemptOutput, Reconcile, DoRecover, Latest;
    RecoveryStores(s, r, time, resetInterval);
    var rec := s.recoveries[r];
    var row, i := s.db.RunOf(rec.id), rec.id - 1;
    assert RecoveryOk(s, r);
    assert RunOk(s, i);
    var plan := s.plans[row.of.sessionID];
    RowAgrees(row, rec.id, s.trail[i], plan);
    if row.checkpoint.None? {
      if rec.run.checkpoint.None? {
        UntouchedIsSilent(rec.session, rec.id, row.of, s.trail[i].birth, plan);
      }
    } else if rec.file.Some? {
      OriginIsKnown(s, i);
      FileOrAdopted(rec.file.value, row.checkpoint.value, rec.session, rec.id, row.of, s.trail[i].birth, plan);
    }
  }

  lemma FileOrAdopted(
    file: SessionState, published: SessionState, c: SessionState, id: nat, of: Identity, birth: Birth, plan: Plan)
    requires OwnState(published, id, of, birth, plan) && !birth.origin.WindowUnknown?
        && Reconcile(file, id, of) == Ok(c)
    ensures c == published <==> file == published
  {
  }

  // ---- over whole histories ----

  /** The state in which a server has just read the row of run i + 1. */
  function Sighting(before: seq<Action>, i: nat): System
  {
    DoSight(After(before), i)
  }

  lemma SightingIsRecorded(before: seq<Action>, i: nat)
    requires i < |After(before).db.runs| && Expired(After(before).db.runs[i], After(before).now)
    ensures var s := Sighting(before, i);
            && Inv(s) && s.db == After(before).db
            && WentBy(s, |After(before).recoveries|, i + 1, After(before).db.runs[i])
  {
    InvariantAlways(before);
    hide Play, Inv;
    SightKeeps(After(before), i);
  }

  /** Recovery loses no accepted work, unless the clock goes back past the lease. Let a server
      read an expired row, let anything happen, and let the server's recovery then succeed. If
      the database clock has not shown a time before the lease it read since, then the row was
      still exactly the one it read, and it is finalized with all the store had accepted. */
  lemma RecoveryLosesNothing(before: seq<Action>, i: nat, later: seq<Action>, time: int, resetInterval: int)
    requires i < |After(before).db.runs| && Expired(After(before).db.runs[i], After(before).now)
    requires NeverBefore(Sighting(before, i), later, After(before).db.runs[i].leaseExpiresAt)
    requires var s := Play(Sighting(before, i), later);
             Next(s, Recover(|After(before).recoveries|, time, resetInterval)) != s
    ensures var s := Play(Sighting(before, i), later);
            var after := Next(s, Recover(|After(before).recoveries|, time, resetInterval));
            && i < |s.db.runs| && i < |after.db.runs|
            && s.db.runs[i] == After(before).db.runs[i] && !after.db.runs[i].status.RunRunning?
            && KeepsAccepted(s.db.runs[i], after.db.runs[i])
  {
    var start := Sighting(before, i);
    var row, r := After(before).db.runs[i], |After(before).recoveries|;
    SightingIsRecorded(before, i);
    FrozenStays(start, later, i, row);
    ReadingStays(start, later, r, i + 1, row);
    InvariantStays(start, later);
    hide *;
    RecoverFrozen(Play(start, later), r, i, row, time, resetInterval);
  }

  lemma RecoverFrozen(s: System, r: nat, i: nat, row: Run, time: int, resetInterval: int)
    requires Inv(s) && Frozen(s.db.runs, i, row) && WentBy(s, r, i + 1, row)
    requires Next(s, Recover(r, time, resetInterval)) != s
    ensures var after := Next(s, Recover(r, time, resetInterval));
            && i < |s.db.runs| && i < |after.db.runs| && s.db.runs[i] == row && !after.db.runs[i].status.RunRunning?
            && KeepsAccepted(s.db.runs[i], after.db.runs[i])
  {
    hide Inv, DoRecover, KeepsAccepted;
    RecoverKeepsAccepted(s, r, time, resetInterval);
    ShapeOf(s);
    RecoveryStores(s, r, time, resetInterval);
  }

  lemma ShapeOf(s: System)
    requires Inv(s)
    ensures Shape(s)
  {
  }

  /** Action a publishes a state of run i + 1 and the store accepts it. */
  predicate Publishes(s: System, a: Action, i: nat)
  {
    && (a == PublishBinding(i) || (a.Commit? && a.run == i))
    && i < |s.db.runs| && i < |Next(s, a).db.runs| && Next(s, a).db.runs[i] != s.db.runs[i]
  }

  /** How far a run has published. */
  function Reached(row: Run): nat
  {
    match row.checkpoint
    case None => 0
    case Some(c) => 1 + c.next + if c.halt.Terminal() then 1 else 0
  }

  /** Every accepted publication moves the checkpoint on; no other step touches the checkpoint
      of a run that goes on running. */
  lemma StepPublishes(s: System, a: Action, i: nat)
    requires Inv(s) && i < |s.db.runs| && i < |Next(s, a).db.runs| && Next(s, a).db.runs[i].status.RunRunning?
    ensures Publishes(s, a, i) ==> Reached(Next(s, a).db.runs[i]) > Reached(s.db.runs[i])
    ensures !Publishes(s, a, i) ==> Next(s, a).db.runs[i].checkpoint == s.db.runs[i].checkpoint
    ensures s.db.runs[i].status.RunRunning?
  {
    hide Inv, Next;
    StepKeepsFinalized(s, a);
    if a == PublishBinding(i) {
      BindingPublishes(s, i);
    } else if a.Commit? && a.run == i {
      CommitPublishes(s, i, a.cancelled, a.time);
    } else {
      OthersKeepCheckpoint(s, a, i);
    }
  }

  lemma BindingPublishes(s: System, i: nat)
    requires Inv(s) && i < |s.db.runs| && s.db.runs[i].status.RunRunning?
    ensures var t := Next(s, PublishBinding(i));
            i < |t.db.runs| && (t.db.runs[i] == s.db.runs[i] || (Reached(s.db.runs[i]) == 0 < Reached(t.db.runs[i])))
  {
    hide LinkOk, TaskOk, FileOk, SnapshotOk, RecoveryOk, RowOk, OwnState, Latest;
    assert RunOk(s, i);
  }

  lemma CommitPublishes(s: System, i: nat, cancelled: bool, time: int)
    requires Inv(s) && i < |s.db.runs| && s.db.runs[i].status.RunRunning?
    ensures var t := Next(s, Commit(i, cancelled, time));
            i < |t.db.runs| && (t.db.runs[i] == s.db.runs[i] || Reached(s.db.runs[i]) < Reached(t.db.runs[i]))
  {
    hide LinkOk, TaskOk, FileOk, SnapshotOk, RecoveryOk, RowOk, OwnState, Latest, Advance;
    assert RunOk(s, i);
  }

  lemma OthersKeepCheckpoint(s: System, a: Action, i: nat)
    requires i < |s.db.runs| && i < |Next(s, a).db.runs| && Next(s, a).db.runs[i].status.RunRunning?
    requires a != PublishBinding(i) && !(a.Commit? && a.run == i)
    ensures Next(s, a).db.runs[i].checkpoint == s.db.runs[i].checkpoint
  {
    hide Advance, OwnerParams, RecoveryParams, Reconcile, PlannedSteps, Start, BindAttempt, Claimable, Refusal, NewRun;
    hide ResumeCandidate, PrepareResume, Unscheduled, ClaimParams, LateDecision;
  }

  /** No publication of run i + 1 was accepted in this history. */
  predicate Silent(s: System, later: seq<Action>, i: nat)
  {
    forall n :: 0 <= n < |later| ==> !Publishes(Play(s, later[..n]), later[n], i)
  }

  /** While a run goes on running, its checkpoint is the same exactly if no publication was
      accepted meanwhile. */
  lemma {:induction false} SameCheckpointMeansSilent(s: System, later: seq<Action>, i: nat)
    requires Inv(s) && i < |s.db.runs| && i < |Play(s, later).db.runs| && Play(s, later).db.runs[i].status.RunRunning?
    ensures Reached(s.db.runs[i]) <= Reached(Play(s, later).db.runs[i])
    ensures Silent(s, later, i) <==> Play(s, later).db.runs[i].checkpoint == s.db.runs[i].checkpoint
    ensures !Silent(s, later, i) ==> Reached(s.db.runs[i]) < Reached(Play(s, later).db.runs[i])
  {
    hide Inv, Next, Publishes;
    if |later| > 0 {
      var n := |later| - 1;
      var mid := Play(s, later[..n]);
      InvariantStays(s, later[..n]);
      RunsStay(s, later[..n], i);
      StepPublishes(mid, later[n], i);
      SameCheckpointMeansSilent(s, later[..n], i);
      forall m | 0 <= m < n ensures later[..n][..m] == later[..m] {
      }
      assert Silent(s, later, i) <==> Silent(s, later[..n], i) && !Publishes(mid, later[n], i);
    }
  }

  lemma {:induction false} RunsStay(s: System, later: seq<Action>, i: nat)
    requires i < |s.db.runs|
    ensures i < |Play(s, later).db.runs|
  {
    hide Next;
    if |later| > 0 {
      RunsStay(s, later[..|later| - 1], i);
      StepKeepsFinalized(Play(s, later[..|later| - 1]), later[|later| - 1]);
    }
  }

  /** With a clock that goes as it likes: a recovery that succeeds keeps all the store had
      accepted if and only if no publication was accepted since the server read the row, or
      the server read a row without checkpoint and the file it loaded is current. */
  lemma RecoveryKeepsIffSilent(before: seq<Action>, i: nat, later: seq<Action>, time: int, resetInterval: int)
    requires i < |After(before).db.runs| && Expired(After(before).db.runs[i], After(before).now)
    requires var s := Play(Sighting(before, i), later);
             Next(s, Recover(|After(before).recoveries|, time, resetInterval)) != s
    ensures var r := |After(before).recoveries|;
            var s := Play(Sighting(before, i), later);
            var after := Next(s, Recover(r, time, resetInterval));
            && r < |s.recoveries| && i < |s.db.runs| && i < |after.db.runs|
            && (KeepsAccepted(s.db.runs[i], after.db.runs[i]) <==>
                  Silent(Sighting(before, i), later, i) || FileIsCurrent(s.recoveries[r], s.db.runs[i]))
  {
    var start := Sighting(before, i);
    var row, r := After(before).db.runs[i], |After(before).recoveries|;
    SightingIsRecorded(before, i);
    ReadingStays(start, later, r, i + 1, row);
    InvariantStays(start, later);
    hide Play, Inv, DoRecover, KeepsAccepted, Silent;
    var s := Play(start, later);
    RecoverKeepsAccepted(s, r, time, resetInterval);
    ShapeOf(s);
    RecoveryStores(s, r, time, resetInterval);
    SameCheckpointMeansSilent(start, later, i);
  }
}
